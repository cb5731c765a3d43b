/** Drafts of several sessions over one board: what one session takes is lost to the drafts of the others. */
module PlanRivals {
  import opened Sequences
  import opened Records
  import opened Tables
  import opened Queues
  import opened Board
  import opened BoardRuns
  import opened ScheduleInputs
  import opened SchedulePlans
  import opened PlanApplication
  import opened PlanDrafts
  import opened PlanLifecycle

  // ----- changed orders carry the time of the change -----

  /** Every order is as it was before, or stamped now. */
  ghost predicate Restamped(orders: Orders, orders': Orders, now: int) {
    forall o :: o in orders' ==> (o in orders && orders'[o] == orders[o]) || orders'[o].updatedAt == now
  }

  lemma LinkingStamps(orders: Orders, ids: set<Id>, status: OrderStatus, taskId: Option<Id>, now: int)
    ensures Restamped(orders, Linked(orders, ids, status, taskId, now), now)
  {
  }

  lemma RestampedTrans(a: Orders, b: Orders, c: Orders, now: int)
    requires Restamped(a, b, now) && Restamped(b, c, now)
    ensures Restamped(a, c, now)
  {
  }

  lemma {:induction false} PlacingStamps(s: State, entries: seq<Entry>, newIds: seq<Id>, now: int)
    requires |newIds| == |entries|
    ensures Restamped(s.orders, PlaceAll(s, entries, newIds, now).orders, now)
  {
    if entries != [] {
      var n := |entries| - 1;
      var before := PlaceAll(s, entries[..n], newIds[..n], now);
      PlacingStamps(s, entries[..n], newIds[..n], now);
      LinkingStamps(before.orders, SetOf(entries[n].orderIds), OrderProducing, Some(newIds[n]), now);
      RestampedTrans(s.orders, before.orders, PlaceAll(s, entries, newIds, now).orders, now);
    }
  }

  lemma RelinkedStamps(orders: Orders, orders': Orders, now: int)
    requires Relinked(orders, orders', now)
    ensures Restamped(orders, orders', now)
  {
  }

  lemma StepStamps(s: State, op: Op, now: int)
    requires Fresh(s, op)
    ensures Restamped(s.orders, Step(s, op, now).orders, now)
  {
    if OnTasks(op) {
      TaskStepRelinks(s, op, now);
      RelinkedStamps(s.orders, Step(s, op, now).orders, now);
    } else if op.DoApplyPlan? {
      PlacingStamps(s, op.plan.tasks, op.newIds, now);
    }
  }

  lemma CommandStamps(w: Workspace, c: Command, now: int)
    requires FreshCommand(w, c) && RowsKeyed(w.board)
    ensures Restamped(w.board.orders, Next(w, c, now).board.orders, now)
  {
    match c
    case Generating(_, _, _) =>
    case Patching(_, _, _) =>
    case Applying(p, _, newIds) =>
      if p in w.plans {
        PlacingStamps(w.board, w.plans[p].tasks, newIds, now);
      }
    case Closing(_, _, _) =>
    case OnBoard(op) => StepStamps(w.board, op, now);
  }

  // ----- a draft keeps its inputs and its fingerprint -----

  predicate SameInputs(p: Plan, q: Plan) { q.inputIds == p.inputIds && q.fingerprint == p.fingerprint }

  lemma EditKeepsInputs(s: State, p: Plan, edits: seq<Edit>)
    requires UpdateDraft(s, p, RevisionOf(p), edits).Ok?
    ensures SameInputs(p, UpdateDraft(s, p, RevisionOf(p), edits).value)
  {
  }

  /** The plan is still there, with the inputs it had. */
  ghost predicate InputsKept(w: Workspace, reply: Reply, p: Id)
    requires p in w.plans
  {
    reply.Ok? ==> p in reply.value.plans && SameInputs(w.plans[p], reply.value.plans[p])
  }

  lemma PatchKeepsInputs(w: Workspace, planId: Id, expected: nat, edits: seq<Edit>, p: Id)
    requires p in w.plans
    ensures InputsKept(w, PatchPlan(w, planId, expected, edits), p)
  {
    if PatchPlan(w, planId, expected, edits).Ok? {
      EditKeepsInputs(w.board, w.plans[planId], edits);
    }
  }

  lemma ApplyKeepsInputs(w: Workspace, planId: Id, expected: nat, newIds: seq<Id>, now: int, p: Id)
    requires p in w.plans && (planId in w.plans ==> |newIds| == |w.plans[planId].tasks|)
    ensures InputsKept(w, Apply(w, planId, expected, newIds, now), p)
  {
  }

  lemma GenerateKeepsInputs(w: Workspace, selection: Option<seq<Id>>, intent: Option<Intent>, newPlanId: Id, p: Id)
    requires RowsKeyed(w.board) && newPlanId !in w.plans && p in w.plans
    ensures InputsKept(w, Generate(w, selection, intent, newPlanId), p)
  {
    if Generate(w, selection, intent, newPlanId).Ok? {
      AdoptedKeepsInputs(w, CreatePlan(w.board, selection).value, newPlanId, p);
    }
  }

  lemma AdoptedKeepsInputs(w: Workspace, draft: Plan, newPlanId: Id, p: Id)
    requires newPlanId !in w.plans && p in w.plans
    ensures p in Adopted(w, draft, newPlanId).plans && SameInputs(w.plans[p], Adopted(w, draft, newPlanId).plans[p])
  {
  }

  lemma CloseKeepsInputs(w: Workspace, planId: Id, expected: nat, confirmed: bool, p: Id)
    requires p in w.plans
    ensures InputsKept(w, Close(w, planId, expected, confirmed), p)
  {
  }

  lemma ResponseKeepsInputs(w: Workspace, c: Command, now: int, p: Id)
    requires FreshCommand(w, c) && RowsKeyed(w.board) && p in w.plans
    ensures InputsKept(w, Response(w, c, now), p)
  {
    match c
    case Generating(selection, intent, newPlanId) => GenerateKeepsInputs(w, selection, intent, newPlanId, p);
    case Patching(planId, expected, edits) => PatchKeepsInputs(w, planId, expected, edits, p);
    case Applying(planId, expected, newIds) => ApplyKeepsInputs(w, planId, expected, newIds, now, p);
    case Closing(planId, expected, confirmed) => CloseKeepsInputs(w, planId, expected, confirmed, p);
    case OnBoard(_) =>
  }

  lemma CommandKeepsInputs(w: Workspace, c: Command, now: int, p: Id)
    requires FreshCommand(w, c) && RowsKeyed(w.board) && p in w.plans
    ensures p in Next(w, c, now).plans && SameInputs(w.plans[p], Next(w, c, now).plans[p])
  {
    ResponseKeepsInputs(w, c, now, p);
  }

  lemma {:induction false} InputsStay(ws: seq<Workspace>, cs: seq<Command>, times: seq<int>, i: nat, j: nat, p: Id)
    requires IsHistory(ws, cs, times) && i <= j < |ws| && p in ws[i].plans
    ensures p in ws[j].plans && SameInputs(ws[i].plans[p], ws[j].plans[p])
    decreases j
  {
    if i < j {
      InputsStay(ws, cs, times, i, j - 1, p);
      assert FollowsAt(ws, cs, times, j - 1);
      CommandKeepsInputs(ws[j - 1], cs[j - 1], times[j - 1], p);
    }
  }

  // ----- a stamp never goes back -----

  predicate NotBefore(orders: Orders, o: Id, time: int) { o in orders ==> orders[o].updatedAt >= time }

  ghost predicate Advances(times: seq<int>) { forall k, l :: 0 <= k <= l < |times| ==> times[k] <= times[l] }

  lemma {:induction false} StampStays(ws: seq<Workspace>, cs: seq<Command>, times: seq<int>, i: nat, j: nat, o: Id)
    requires IsHistory(ws, cs, times) && Advances(times) && i < j < |ws|
    requires NotBefore(ws[i + 1].board.orders, o, times[i])
    ensures NotBefore(ws[j].board.orders, o, times[i])
    decreases j
  {
    if i + 1 < j {
      StampStays(ws, cs, times, i, j - 1, o);
      assert times[i] <= times[j - 1];
      StampOneStep(ws, cs, times, j - 1, o, times[i]);
    }
  }

  lemma StampOneStep(ws: seq<Workspace>, cs: seq<Command>, times: seq<int>, k: nat, o: Id, time: int)
    requires IsHistory(ws, cs, times) && k < |cs| && NotBefore(ws[k].board.orders, o, time) && time <= times[k]
    ensures NotBefore(ws[k + 1].board.orders, o, time)
  {
    assert FollowsAt(ws, cs, times, k);
    CommandStamps(ws[k], cs[k], times[k]);
  }

  // ----- the rival's plan -----

  /** At this step of the history a plan from elsewhere took the order. */
  ghost predicate TakenAt(ws: seq<Workspace>, cs: seq<Command>, times: seq<int>, i: nat, o: Id)
    requires IsHistory(ws, cs, times) && i < |cs|
  {
    && cs[i].OnBoard? && cs[i].op.DoApplyPlan? && |cs[i].op.newIds| == |cs[i].op.plan.tasks|
    && o in AllIds(cs[i].op.plan.tasks)
    && ApplyPlan(ws[i].board, cs[i].op.plan, cs[i].op.newIds, times[i]).Ok?
  }

  lemma TakenIsStamped(s: State, q: Plan, newIds: seq<Id>, now: int, o: Id)
    requires |newIds| == |q.tasks| && ApplyPlan(s, q, newIds, now).Ok? && o in AllIds(q.tasks)
    ensures var orders := ApplyPlan(s, q, newIds, now).value.0.orders; o in orders && orders[o].updatedAt == now
  {
    PlacingStamps(s, q.tasks, newIds, now);
    ApplyTakesOrders(s, q.tasks, newIds, now);
    PlaceAllKeepsOrders(s, q.tasks, newIds, now);
    assert o in s.orders && Unlinked(s.orders[o]) && o in Pending(s.orders);
  }

  lemma TakenAtStamps(ws: seq<Workspace>, cs: seq<Command>, times: seq<int>, i: nat, o: Id)
    requires IsHistory(ws, cs, times) && i < |cs| && TakenAt(ws, cs, times, i, o)
    ensures NotBefore(ws[i + 1].board.orders, o, times[i])
  {
    assert FollowsAt(ws, cs, times, i);
    RivalStamps(ws[i].board, cs[i].op, times[i], o);
    NextOnBoard(ws[i], cs[i], times[i]);
  }

  lemma NextOnBoard(w: Workspace, c: Command, now: int)
    requires FreshCommand(w, c) && RowsKeyed(w.board) && c.OnBoard?
    ensures Next(w, c, now).board == Step(w.board, c.op, now)
  {
  }

  lemma RivalStamps(s: State, op: Op, now: int, o: Id)
    requires Fresh(s, op) && op.DoApplyPlan? && o in AllIds(op.plan.tasks)
    requires ApplyPlan(s, op.plan, op.newIds, now).Ok?
    ensures NotBefore(Step(s, op, now).orders, o, now)
  {
    TakenIsStamped(s, op.plan, op.newIds, now, o);
    StepOfPlan(s, op, now);
  }

  lemma StepOfPlan(s: State, op: Op, now: int)
    requires Fresh(s, op) && op.DoApplyPlan? && ApplyPlan(s, op.plan, op.newIds, now).Ok?
    ensures Step(s, op, now) == ApplyPlan(s, op.plan, op.newIds, now).value.0
  {
  }

  lemma {:induction false} PlaceAllKeepsOrders(s: State, entries: seq<Entry>, newIds: seq<Id>, now: int)
    requires |newIds| == |entries|
    ensures PlaceAll(s, entries, newIds, now).orders.Keys == s.orders.Keys
  {
    if entries != [] {
      PlaceAllKeepsOrders(s, entries[..|entries| - 1], newIds[..|entries| - 1], now);
    }
  }

  /** An input order with another stamp than the draft's: the draft can be neither applied nor edited. */
  lemma OldStampRefused(s: State, p: Plan, o: Id, revision: Revision, edits: seq<Edit>)
    requires Coherent(p) && o in p.inputIds && p.status == PlanDraft
    requires o in p.fingerprint.stamps && (o in s.orders ==> s.orders[o].updatedAt != p.fingerprint.stamps[o])
    ensures ApplyError(s, p).Some? && UpdateDraft(s, p, revision, edits).Err?
  {
    OldStampOutdated(s, p, o);
    OldStampStale(s, p, o);
  }

  lemma OldStampOutdated(s: State, p: Plan, o: Id)
    requires o in p.inputIds && o in p.fingerprint.stamps
    requires o in s.orders ==> s.orders[o].updatedAt != p.fingerprint.stamps[o]
    ensures ApplyError(s, p).Some?
  {
    if Outdated(s, p).None? {
      assert o in SetOf(p.inputIds) && o in Existing(s, p);
    }
  }

  lemma OldStampStale(s: State, p: Plan, o: Id)
    requires o in p.fingerprint.stamps && (o in s.orders ==> s.orders[o].updatedAt != p.fingerprint.stamps[o])
    ensures IsStale(s, p)
  {
    var stamps := FingerprintOf(s, CoveredNow(s, p), p.fingerprint.scoped).stamps;
    assert stamps == Stamps(s.orders, CoveredNow(s, p));
    assert o in stamps ==> o in s.orders && stamps[o] == s.orders[o].updatedAt;
  }

  /**
   * Once another session's plan has taken one of a draft's input orders, the draft is never applied and never edited
   * again, whatever happens in between: not even after the order has come back to the pending ones.
   */
  lemma TakenDraftIsLost(ws: seq<Workspace>, cs: seq<Command>, times: seq<int>, i: nat, j: nat, p: Id, o: Id,
                         expected: nat, newIds: seq<Id>, edits: seq<Edit>, now: int)
    requires IsHistory(ws, cs, times) && Advances(times) && WorkspaceInv(ws[0]) && i < j < |ws|
    requires TakenAt(ws, cs, times, i, o) && p in ws[i].plans && o in ws[i].plans[p].inputIds
    requires o in ws[i].plans[p].fingerprint.stamps && ws[i].plans[p].fingerprint.stamps[o] < times[i]
    ensures p in ws[j].plans
    ensures ws[j].plans[p].status == PlanDraft ==>
              && (|newIds| == |ws[j].plans[p].tasks| ==> Apply(ws[j], p, expected, newIds, now).Err?)
              && PatchPlan(ws[j], p, expected, edits).Err?
  {
    TakenAtStamps(ws, cs, times, i, o);
    StampStays(ws, cs, times, i, j, o);
    InputsStay(ws, cs, times, i, j, p);
    HistoryIsCoherent(ws, cs, times, j, p);
    LostToRival(ws[j], p, o, times[i], expected, newIds, edits, now);
  }

  lemma HistoryIsCoherent(ws: seq<Workspace>, cs: seq<Command>, times: seq<int>, j: nat, p: Id)
    requires IsHistory(ws, cs, times) && WorkspaceInv(ws[0]) && j < |ws| && p in ws[j].plans
    ensures Coherent(ws[j].plans[p])
  {
    HistoryKeepsInv(ws, cs, times, j);
  }

  lemma LostToRival(w: Workspace, p: Id, o: Id, taken: int, expected: nat, newIds: seq<Id>, edits: seq<Edit>, now: int)
    requires p in w.plans && Coherent(w.plans[p]) && o in w.plans[p].inputIds
    requires o in w.plans[p].fingerprint.stamps && w.plans[p].fingerprint.stamps[o] < taken
    requires NotBefore(w.board.orders, o, taken)
    ensures w.plans[p].status == PlanDraft ==>
              && (|newIds| == |w.plans[p].tasks| ==> Apply(w, p, expected, newIds, now).Err?)
              && PatchPlan(w, p, expected, edits).Err?
  {
    if w.plans[p].status == PlanDraft {
      OldStampRefused(w.board, w.plans[p], o, RevisionOf(w.plans[p]), edits);
    }
  }
}
