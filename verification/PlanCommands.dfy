/** When the commands on a session's plans are accepted, and what they leave of plans and board. */
module PlanCommands {
  import opened Sequences
  import opened Records
  import opened Tables
  import opened Board
  import opened ScheduleInputs
  import opened SchedulePlans
  import opened PlanAcceptance
  import opened PlanLifecycle

  // ----- generating -----

  /** The orders of a selection: pending, each named once, one at least. */
  predicate Selectable(s: State, selection: Option<seq<Id>>) {
    selection.Some? ==> selection.value != [] && NoDuplicates(selection.value) && forall o :: o in selection.value ==> IsPending(s, o)
  }

  lemma SelectableExactlyWhen(s: State, selection: Option<seq<Id>>)
    requires RowsKeyed(s)
    ensures CreatePlan(s, selection).Ok? <==> Selectable(s, selection)
  {
    if selection.Some? {
      assert SetOf(selection.value) <= Pending(s.orders) <==> forall o :: o in selection.value ==> o in Pending(s.orders);
      assert forall o: Id :: o in Pending(s.orders) <==> IsPending(s, o);
    }
  }

  /** A draft is generated where there is none, or in place of the active one at the revision that was agreed to, from pending orders. */
  lemma GenerateExactlyWhen(w: Workspace, selection: Option<seq<Id>>, intent: Option<Intent>, newPlanId: Id)
    requires RowsKeyed(w.board)
    ensures Generate(w, selection, intent, newPlanId).Ok?
            <==> (w.active.Some? ==> w.active.value in w.revisions && intent == Some(Intent(w.active.value, w.revisions[w.active.value])))
                 && (exists o: Id :: IsPending(w.board, o)) && Selectable(w.board, selection)
  {
    SelectableExactlyWhen(w.board, selection);
    if Pending(w.board.orders) != {} {
      var o :| o in Pending(w.board.orders);
      assert IsPending(w.board, o);
    }
    if o: Id :| IsPending(w.board, o) {
      assert o in Pending(w.board.orders);
    }
  }

  lemma GeneratedBecomes(w: Workspace, selection: Option<seq<Id>>, intent: Option<Intent>, newPlanId: Id)
    requires RowsKeyed(w.board) && newPlanId !in w.plans && Generate(w, selection, intent, newPlanId).Ok?
    ensures CreatePlan(w.board, selection).Ok?
    ensures var w' := Generate(w, selection, intent, newPlanId).value;
            && w'.board == w.board && w'.log == w.log && w'.active == Some(newPlanId)
            && w'.plans.Keys == w.plans.Keys + {newPlanId} && w'.plans[newPlanId] == CreatePlan(w.board, selection).value
            && (forall p :: p in w.plans ==>
                  w'.plans[p] == if w.active == Some(p) then w.plans[p].(status := PlanSuperseded) else w.plans[p])
            && w'.revisions == w.revisions[newPlanId := 1]
  {
    AdoptedBecomes(w, CreatePlan(w.board, selection).value, newPlanId);
  }

  lemma AdoptedBecomes(w: Workspace, p: Plan, newPlanId: Id)
    requires newPlanId !in w.plans
    ensures var w' := Adopted(w, p, newPlanId);
            && w'.board == w.board && w'.log == w.log && w'.active == Some(newPlanId)
            && w'.plans.Keys == w.plans.Keys + {newPlanId} && w'.plans[newPlanId] == p
            && (forall q :: q in w.plans ==>
                  w'.plans[q] == if w.active == Some(q) then w.plans[q].(status := PlanSuperseded) else w.plans[q])
            && w'.revisions == w.revisions[newPlanId := 1]
  {
  }

  /** The plan is a draft, and the caller has seen its present revision. */
  predicate SeenDraft(w: Workspace, p: Id, expected: nat) {
    p in w.plans && w.plans[p].status == PlanDraft && p in w.revisions && w.revisions[p] == expected
  }

  lemma PatchExactlyWhen(w: Workspace, p: Id, expected: nat, edits: seq<Edit>)
    ensures PatchPlan(w, p, expected, edits).Ok? <==> SeenDraft(w, p, expected) && !IsStale(w.board, w.plans[p]) && EditsFit(w.board, w.plans[p], edits)
    ensures PatchPlan(w, p, expected, edits).Ok? ==>
              var w' := PatchPlan(w, p, expected, edits).value;
              && w' == w.(plans := w'.plans, revisions := w.revisions[p := expected + 1])
              && w'.plans == w.plans[p := UpdateDraft(w.board, w.plans[p], Revision(w.plans[p].tasks, w.plans[p].unassigned), edits).value]
  {
    if p in w.plans {
      RedrawnExactlyWhen(w.board, w.plans[p], RevisionOf(w.plans[p]), edits);
    }
  }

  /** An applied plan may be applied again, to no effect; otherwise it takes the active draft, seen as it is, and the board's consent. */
  lemma ApplyExactlyWhen(w: Workspace, p: Id, expected: nat, newIds: seq<Id>, now: int)
    requires p in w.plans ==> |newIds| == |w.plans[p].tasks|
    ensures Apply(w, p, expected, newIds, now).Ok?
            <==> p in w.plans
                 && (w.plans[p].status == PlanApplied
                     || (SeenDraft(w, p, expected) && w.active == Some(p) && ApplyError(w.board, w.plans[p]).None?))
    ensures Apply(w, p, expected, newIds, now).Ok? ==>
              var w' := Apply(w, p, expected, newIds, now).value;
              if w.plans[p].status == PlanApplied then w' == w
              else
                && w'.plans == w.plans[p := w.plans[p].(status := PlanApplied)] && w'.revisions == w.revisions[p := expected + 1]
                && w'.active == None && w'.log == w.log + [p] && w'.successors == w.successors
                && w'.board == PlaceAll(w.board, w.plans[p].tasks, newIds, now)
  {
  }

  lemma CloseExactlyWhen(w: Workspace, p: Id, expected: nat, confirmed: bool)
    ensures Close(w, p, expected, confirmed).Ok? <==> SeenDraft(w, p, expected) && w.active == Some(p) && confirmed
    ensures Close(w, p, expected, confirmed).Ok? ==>
              var w' := Close(w, p, expected, confirmed).value;
              && w' == w.(plans := w.plans[p := w.plans[p].(status := PlanClosed)], revisions := w.revisions[p := expected + 1], active := None)
  {
  }
}
