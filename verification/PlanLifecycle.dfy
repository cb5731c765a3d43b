/** A scheduling session's drafts: generated, replaced, edited, applied or closed, each at most once (agent_schedule_service.py). */
module PlanLifecycle {
  import opened Sequences
  import opened Records
  import opened Board
  import opened BoardRuns
  import opened ScheduleInputs
  import opened SchedulePlans
  import opened PlanApplication
  import opened PlanDrafts

  /** successors: the plan that replaced a plan; log: the plans applied, in order. */
  datatype Workspace = Workspace(
    board: State, plans: map<Id, Plan>, revisions: map<Id, nat>, successors: map<Id, Id>, active: Option<Id>, log: seq<Id>)

  datatype CommandError =
    | PlanMissing | RevisionConflict | NotActive | NoFeasible | NotConfirmed | ReplacementRequired | NoPending
    | Failed(error: PlanError)

  type Reply = Result<Workspace, CommandError>

  /** The plan a run may replace, and the revision it was confirmed at. */
  datatype Intent = Intent(planId: Id, revision: nat)

  predicate AtRevision(w: Workspace, planId: Id, expected: nat) {
    planId in w.plans && w.plans[planId].status == PlanDraft && planId in w.revisions && w.revisions[planId] == expected
  }

  /** generate: a new draft, in place of the active one if the run was asked to replace it. */
  ghost function Generate(w: Workspace, selection: Option<seq<Id>>, intent: Option<Intent>, newPlanId: Id): Reply
    requires RowsKeyed(w.board)
  {
    if w.active.Some? && intent.None? then Err(ReplacementRequired)
    else if w.active.Some? && !(w.active.value in w.revisions
              && intent.value == Intent(w.active.value, w.revisions[w.active.value])) then Err(RevisionConflict)
    else if Pending(w.board.orders) == {} then Err(NoPending)
    else match CreatePlan(w.board, selection)
      case Err(e) => Err(Failed(e))
      case Ok(p) => Ok(Adopted(w, p, newPlanId))
  }

  /** The new draft becomes the active one and supersedes the one before. */
  function Adopted(w: Workspace, p: Plan, newPlanId: Id): Workspace {
    var replaced :=
      if w.active.Some? && w.active.value in w.plans
      then w.plans[w.active.value := w.plans[w.active.value].(status := PlanSuperseded)] else w.plans;
    w.(plans := replaced[newPlanId := p], revisions := w.revisions[newPlanId := 1], active := Some(newPlanId),
       successors := if w.active.Some? then w.successors[w.active.value := newPlanId] else w.successors)
  }

  function Patched(w: Workspace, planId: Id, p: Plan, revision: nat): Workspace {
    w.(plans := w.plans[planId := p], revisions := w.revisions[planId := revision])
  }

  function Delivered(w: Workspace, planId: Id, board: State, p: Plan, revision: nat): Workspace {
    w.(board := board, plans := w.plans[planId := p], revisions := w.revisions[planId := revision],
       active := None, log := w.log + [planId])
  }

  /** patch_plan */
  function PatchPlan(w: Workspace, planId: Id, expected: nat, edits: seq<Edit>): Reply {
    if planId !in w.plans then Err(PlanMissing)
    else if !AtRevision(w, planId, expected) then Err(RevisionConflict)
    else match UpdateDraft(w.board, w.plans[planId], RevisionOf(w.plans[planId]), edits)
      case Err(e) => Err(Failed(e))
      case Ok(p) => Ok(Patched(w, planId, p, expected + 1))
  }

  /** plan_command APPLY_PLAN: an applied plan answers again without doing anything. */
  function Apply(w: Workspace, planId: Id, expected: nat, newIds: seq<Id>, now: int): Reply
    requires planId in w.plans ==> |newIds| == |w.plans[planId].tasks|
  {
    if planId !in w.plans then Err(PlanMissing)
    else if w.plans[planId].status == PlanApplied then Ok(w)
    else if !AtRevision(w, planId, expected) then Err(RevisionConflict)
    else if w.active != Some(planId) then Err(NotActive)
    else if w.plans[planId].tasks == [] then Err(NoFeasible)
    else match ApplyPlan(w.board, w.plans[planId], newIds, now)
      case Err(e) => Err(Failed(e))
      case Ok(r) => Ok(Delivered(w, planId, r.0, r.1, expected + 1))
  }

  /** plan_command CLOSE_PLAN */
  function Close(w: Workspace, planId: Id, expected: nat, confirmed: bool): Reply {
    if planId !in w.plans then Err(PlanMissing)
    else if !AtRevision(w, planId, expected) then Err(RevisionConflict)
    else if w.active != Some(planId) then Err(NotActive)
    else if !confirmed then Err(NotConfirmed)
    else Ok(Patched(w, planId, w.plans[planId].(status := PlanClosed), expected + 1).(active := None))
  }

  datatype Command =
    | Generating(selection: Option<seq<Id>>, intent: Option<Intent>, newPlanId: Id)
    | Patching(planId: Id, expected: nat, edits: seq<Edit>)
    | Applying(planId: Id, expected: nat, newIds: seq<Id>)
    | Closing(planId: Id, expected: nat, confirmed: bool)
    | OnBoard(op: Op)

  /** Generated ids are new; on the board itself anything may happen meanwhile, other sessions' plans included. */
  predicate FreshCommand(w: Workspace, c: Command) {
    match c
    case Generating(_, _, newPlanId) => newPlanId !in w.plans
    case Applying(planId, _, newIds) => planId in w.plans ==> |newIds| == |w.plans[planId].tasks| && FreshIds(w.board, newIds)
    case OnBoard(op) => Fresh(w.board, op)
    case _ => true
  }

  ghost function Response(w: Workspace, c: Command, now: int): Reply
    requires FreshCommand(w, c) && RowsKeyed(w.board)
  {
    match c
    case Generating(selection, intent, newPlanId) => Generate(w, selection, intent, newPlanId)
    case Patching(planId, expected, edits) => PatchPlan(w, planId, expected, edits)
    case Applying(planId, expected, newIds) => Apply(w, planId, expected, newIds, now)
    case Closing(planId, expected, confirmed) => Close(w, planId, expected, confirmed)
    case OnBoard(op) => Ok(w.(board := Step(w.board, op, now)))
  }

  ghost function Next(w: Workspace, c: Command, now: int): Workspace
    requires FreshCommand(w, c) && RowsKeyed(w.board)
  {
    match Response(w, c, now)
    case Ok(w') => w'
    case Err(_) => w
  }

  // ----- the invariant -----

  /** The active plan is the only draft. */
  ghost predicate OneDraft(w: Workspace) {
    && (w.active.Some? ==> w.active.value in w.plans && w.plans[w.active.value].status == PlanDraft)
    && forall p :: p in w.plans && w.plans[p].status == PlanDraft ==> w.active == Some(p)
  }

  /** The log lists every applied plan once. */
  ghost predicate LogComplete(w: Workspace) {
    NoDuplicates(w.log) && forall p :: p in w.log <==> p in w.plans && w.plans[p].status == PlanApplied
  }

  ghost predicate PlansCoherent(w: Workspace) { forall p :: p in w.plans ==> Coherent(w.plans[p]) }

  ghost predicate SuccessorsKnown(w: Workspace) {
    && (forall p :: p in w.plans && w.plans[p].status == PlanSuperseded ==>
          p in w.successors && w.successors[p] in w.plans && w.successors[p] != p)
    && (forall p :: p in w.plans ==> p in w.revisions && w.revisions[p] >= 1)
  }

  /** The bookkeeping of plans, whatever they contain. */
  ghost predicate Ledger(w: Workspace) { OneDraft(w) && LogComplete(w) && SuccessorsKnown(w) }

  ghost predicate Books(w: Workspace) { Ledger(w) && PlansCoherent(w) }

  ghost predicate WorkspaceInv(w: Workspace) { Inv(w.board) && Books(w) }

  lemma AdoptedBooks(w: Workspace, p: Plan, newPlanId: Id)
    requires Books(w) && newPlanId !in w.plans && p.status == PlanDraft && Coherent(p)
    ensures Books(Adopted(w, p, newPlanId))
  {
    AdoptedCoherent(w, p, newPlanId);
    AdoptedOneDraft(w, p, newPlanId);
    AdoptedLog(w, p, newPlanId);
    AdoptedSuccessors(w, p, newPlanId);
  }

  lemma AdoptedOneDraft(w: Workspace, p: Plan, newPlanId: Id)
    requires OneDraft(w) && newPlanId !in w.plans && p.status == PlanDraft
    ensures OneDraft(Adopted(w, p, newPlanId))
  {
  }

  lemma AdoptedLog(w: Workspace, p: Plan, newPlanId: Id)
    requires OneDraft(w) && LogComplete(w) && newPlanId !in w.plans && p.status == PlanDraft
    ensures LogComplete(Adopted(w, p, newPlanId))
  {
    var w' := Adopted(w, p, newPlanId);
    forall q
      ensures q in w'.plans && w'.plans[q].status == PlanApplied <==> q in w.plans && w.plans[q].status == PlanApplied
    {
    }
  }

  lemma AdoptedSuccessors(w: Workspace, p: Plan, newPlanId: Id)
    requires OneDraft(w) && SuccessorsKnown(w) && newPlanId !in w.plans && p.status == PlanDraft
    ensures SuccessorsKnown(Adopted(w, p, newPlanId))
  {
  }

  lemma AdoptedCoherent(w: Workspace, p: Plan, newPlanId: Id)
    requires PlansCoherent(w) && Coherent(p)
    ensures PlansCoherent(Adopted(w, p, newPlanId))
  {
    forall q | q in Adopted(w, p, newPlanId).plans
      ensures Coherent(Adopted(w, p, newPlanId).plans[q])
    {
      if q != newPlanId {
        assert Coherent(w.plans[q]);
      }
    }
  }

  lemma CoherentWith(w: Workspace, w': Workspace, planId: Id, p: Plan)
    requires PlansCoherent(w) && Coherent(p) && w'.plans == w.plans[planId := p]
    ensures PlansCoherent(w')
  {
    forall q | q in w'.plans
      ensures Coherent(w'.plans[q])
    {
      if q != planId {
        assert Coherent(w.plans[q]);
      }
    }
  }

  /** A draft that has been edited is a draft still. */
  lemma PatchedLedger(w: Workspace, planId: Id, p: Plan, revision: nat)
    requires Ledger(w) && planId in w.plans && w.plans[planId].status == PlanDraft && revision >= 1 && p.status == PlanDraft
    ensures Ledger(Patched(w, planId, p, revision))
  {
  }

  lemma ClosedLedger(w: Workspace, planId: Id, p: Plan, revision: nat)
    requires Ledger(w) && planId in w.plans && w.plans[planId].status == PlanDraft && revision >= 1
    requires p.status == PlanClosed && w.active == Some(planId)
    ensures Ledger(Patched(w, planId, p, revision).(active := None))
  {
  }

  lemma DeliveredLedger(w: Workspace, planId: Id, board: State, p: Plan, revision: nat)
    requires Ledger(w) && planId in w.plans && w.plans[planId].status == PlanDraft && revision >= 1
    requires p.status == PlanApplied && w.active == Some(planId)
    ensures Ledger(Delivered(w, planId, board, p, revision))
  {
  }

  lemma CommandKeepsInv(w: Workspace, c: Command, now: int)
    requires WorkspaceInv(w) && FreshCommand(w, c)
    ensures WorkspaceInv(Next(w, c, now))
  {
    match c
    case Generating(selection, intent, newPlanId) => GenerateKeepsBooks(w, selection, intent, newPlanId);
    case Patching(planId, expected, edits) => PatchKeepsBooks(w, planId, expected, edits);
    case Applying(planId, expected, newIds) =>
      ApplyKeepsBooks(w, planId, expected, newIds, now);
      ApplyCommandKeepsBoard(w, planId, expected, newIds, now);
    case Closing(planId, expected, confirmed) => CloseKeepsBooks(w, planId, expected, confirmed);
    case OnBoard(op) => StepKeepsInv(w.board, op, now);
  }

  /** An accepted reply leaves the board alone and the books in order. */
  ghost predicate KeepsBooks(w: Workspace, reply: Reply) {
    reply.Ok? ==> reply.value.board == w.board && Books(reply.value)
  }

  lemma GenerateAdopts(w: Workspace, selection: Option<seq<Id>>, intent: Option<Intent>, newPlanId: Id)
    requires RowsKeyed(w.board) && Generate(w, selection, intent, newPlanId).Ok?
    ensures var w' := Generate(w, selection, intent, newPlanId).value;
            && newPlanId in w'.plans && w'.plans[newPlanId].status == PlanDraft && Coherent(w'.plans[newPlanId])
            && w' == Adopted(w, w'.plans[newPlanId], newPlanId)
  {
    CreateIsCurrent(w.board, selection);
  }

  lemma GenerateKeepsBooks(w: Workspace, selection: Option<seq<Id>>, intent: Option<Intent>, newPlanId: Id)
    requires RowsKeyed(w.board) && Books(w) && newPlanId !in w.plans
    ensures KeepsBooks(w, Generate(w, selection, intent, newPlanId))
  {
    if Generate(w, selection, intent, newPlanId).Ok? {
      GenerateAdopts(w, selection, intent, newPlanId);
      AdoptedBooks(w, Generate(w, selection, intent, newPlanId).value.plans[newPlanId], newPlanId);
    }
  }

  lemma PatchRedrafts(w: Workspace, planId: Id, expected: nat, edits: seq<Edit>)
    requires PatchPlan(w, planId, expected, edits).Ok? && Coherent(w.plans[planId])
    ensures var w' := PatchPlan(w, planId, expected, edits).value;
            && w.plans[planId].status == PlanDraft && planId in w'.plans
            && w'.plans[planId].status == PlanDraft && Coherent(w'.plans[planId])
            && w' == Patched(w, planId, w'.plans[planId], expected + 1)
  {
    EditKeepsCoherent(w.board, w.plans[planId], RevisionOf(w.plans[planId]), edits);
  }

  lemma PatchKeepsBooks(w: Workspace, planId: Id, expected: nat, edits: seq<Edit>)
    requires Books(w)
    ensures KeepsBooks(w, PatchPlan(w, planId, expected, edits))
  {
    if PatchPlan(w, planId, expected, edits).Ok? {
      assert Coherent(w.plans[planId]);
      PatchRedrafts(w, planId, expected, edits);
      RedraftedBooks(w, planId, PatchPlan(w, planId, expected, edits).value.plans[planId], expected + 1);
    }
  }

  lemma RedraftedBooks(w: Workspace, planId: Id, p: Plan, revision: nat)
    requires Books(w) && planId in w.plans && w.plans[planId].status == PlanDraft && revision >= 1
    requires p.status == PlanDraft && Coherent(p)
    ensures Books(Patched(w, planId, p, revision))
  {
    PatchedLedger(w, planId, p, revision);
    CoherentWith(w, Patched(w, planId, p, revision), planId, p);
  }

  lemma CloseKeepsBooks(w: Workspace, planId: Id, expected: nat, confirmed: bool)
    requires Books(w)
    ensures KeepsBooks(w, Close(w, planId, expected, confirmed))
  {
    if Close(w, planId, expected, confirmed).Ok? {
      var p := w.plans[planId].(status := PlanClosed);
      assert Coherent(w.plans[planId]);
      ClosedLedger(w, planId, p, expected + 1);
      CoherentWith(w, Close(w, planId, expected, confirmed).value, planId, p);
    }
  }

  lemma ApplyKeepsBooks(w: Workspace, planId: Id, expected: nat, newIds: seq<Id>, now: int)
    requires Books(w) && (planId in w.plans ==> |newIds| == |w.plans[planId].tasks|)
    ensures Apply(w, planId, expected, newIds, now).Ok? ==> Books(Apply(w, planId, expected, newIds, now).value)
  {
    if Apply(w, planId, expected, newIds, now).Ok? && w.plans[planId].status != PlanApplied {
      ApplyDelivers(w, planId, expected, newIds, now);
      DeliveredBooks(w, planId, Apply(w, planId, expected, newIds, now).value.board, expected + 1);
    }
  }

  lemma ApplyDelivers(w: Workspace, planId: Id, expected: nat, newIds: seq<Id>, now: int)
    requires planId in w.plans && |newIds| == |w.plans[planId].tasks| && w.plans[planId].status != PlanApplied
    requires Apply(w, planId, expected, newIds, now).Ok?
    ensures w.plans[planId].status == PlanDraft && w.active == Some(planId)
    ensures var w' := Apply(w, planId, expected, newIds, now).value;
            w' == Delivered(w, planId, w'.board, w.plans[planId].(status := PlanApplied), expected + 1)
  {
  }

  lemma DeliveredBooks(w: Workspace, planId: Id, board: State, revision: nat)
    requires Books(w) && planId in w.plans && w.plans[planId].status == PlanDraft && revision >= 1 && w.active == Some(planId)
    ensures Books(Delivered(w, planId, board, w.plans[planId].(status := PlanApplied), revision))
  {
    var p := w.plans[planId].(status := PlanApplied);
    assert Coherent(w.plans[planId]);
    DeliveredLedger(w, planId, board, p, revision);
    CoherentWith(w, Delivered(w, planId, board, p, revision), planId, p);
  }

  lemma ApplyCommandKeepsBoard(w: Workspace, planId: Id, expected: nat, newIds: seq<Id>, now: int)
    requires Inv(w.board) && FreshCommand(w, Applying(planId, expected, newIds))
    ensures Apply(w, planId, expected, newIds, now).Ok? ==> Inv(Apply(w, planId, expected, newIds, now).value.board)
  {
    if Apply(w, planId, expected, newIds, now).Ok? && w.plans[planId].status != PlanApplied {
      ApplyKeepsInv(w.board, w.plans[planId], newIds, now);
    }
  }

  // ----- whole runs -----

  ghost predicate IsHistory(ws: seq<Workspace>, cs: seq<Command>, times: seq<int>) {
    && |ws| == |cs| + 1 && |times| == |cs|
    && forall k: nat :: k < |cs| ==> FollowsAt(ws, cs, times, k)
  }

  ghost predicate FollowsAt(ws: seq<Workspace>, cs: seq<Command>, times: seq<int>, k: nat)
    requires |ws| == |cs| + 1 && |times| == |cs| && k < |cs|
  {
    FreshCommand(ws[k], cs[k]) && RowsKeyed(ws[k].board) && ws[k + 1] == Next(ws[k], cs[k], times[k])
  }

  lemma {:induction false} HistoryKeepsInv(ws: seq<Workspace>, cs: seq<Command>, times: seq<int>, k: nat)
    requires IsHistory(ws, cs, times) && WorkspaceInv(ws[0]) && k < |ws|
    ensures WorkspaceInv(ws[k])
  {
    if k > 0 {
      HistoryKeepsInv(ws, cs, times, k - 1);
      assert FollowsAt(ws, cs, times, k - 1);
      CommandKeepsInv(ws[k - 1], cs[k - 1], times[k - 1]);
    }
  }

  predicate Settled(w: Workspace, p: Id) { p in w.plans && w.plans[p].status != PlanDraft }

  /** An accepted reply leaves the plan as it was. */
  ghost predicate Untouched(w: Workspace, reply: Reply, p: Id)
    requires p in w.plans
  {
    reply.Ok? ==> p in reply.value.plans && reply.value.plans[p] == w.plans[p]
  }

  lemma GeneratingLeavesSettled(w: Workspace, selection: Option<seq<Id>>, intent: Option<Intent>, newPlanId: Id, p: Id)
    requires RowsKeyed(w.board) && OneDraft(w) && newPlanId !in w.plans && Settled(w, p)
    ensures Untouched(w, Generate(w, selection, intent, newPlanId), p)
  {
    if Generate(w, selection, intent, newPlanId).Ok? {
      GenerateAdopts(w, selection, intent, newPlanId);
    }
  }

  lemma PatchingLeavesSettled(w: Workspace, planId: Id, expected: nat, edits: seq<Edit>, p: Id)
    requires Settled(w, p)
    ensures Untouched(w, PatchPlan(w, planId, expected, edits), p)
  {
  }

  lemma ApplyingLeavesSettled(w: Workspace, planId: Id, expected: nat, newIds: seq<Id>, now: int, p: Id)
    requires Settled(w, p) && (planId in w.plans ==> |newIds| == |w.plans[planId].tasks|)
    ensures Untouched(w, Apply(w, planId, expected, newIds, now), p)
  {
  }

  lemma ResponseLeavesSettled(w: Workspace, c: Command, now: int, p: Id)
    requires OneDraft(w) && RowsKeyed(w.board) && FreshCommand(w, c) && Settled(w, p)
    ensures Untouched(w, Response(w, c, now), p)
  {
    match c
    case Generating(selection, intent, newPlanId) => GeneratingLeavesSettled(w, selection, intent, newPlanId, p);
    case Patching(planId, expected, edits) => PatchingLeavesSettled(w, planId, expected, edits, p);
    case Applying(planId, expected, newIds) => ApplyingLeavesSettled(w, planId, expected, newIds, now, p);
    case Closing(_, _, _) =>
    case OnBoard(_) =>
  }

  /** A plan that is no longer a draft is never touched again. */
  lemma SettledPlanStays(w: Workspace, c: Command, now: int, p: Id)
    requires OneDraft(w) && RowsKeyed(w.board) && FreshCommand(w, c) && Settled(w, p)
    ensures p in Next(w, c, now).plans && Next(w, c, now).plans[p] == w.plans[p]
  {
    ResponseLeavesSettled(w, c, now, p);
  }

  lemma {:induction false} SettledForever(ws: seq<Workspace>, cs: seq<Command>, times: seq<int>, i: nat, j: nat, p: Id)
    requires IsHistory(ws, cs, times) && WorkspaceInv(ws[0]) && i <= j < |ws|
    requires Settled(ws[i], p)
    ensures p in ws[j].plans && ws[j].plans[p] == ws[i].plans[p]
    decreases j
  {
    if i < j {
      SettledForever(ws, cs, times, i, j - 1, p);
      SettledOneStep(ws, cs, times, j - 1, p);
    }
  }

  lemma SettledOneStep(ws: seq<Workspace>, cs: seq<Command>, times: seq<int>, k: nat, p: Id)
    requires IsHistory(ws, cs, times) && WorkspaceInv(ws[0]) && k + 1 < |ws|
    requires Settled(ws[k], p)
    ensures p in ws[k + 1].plans && ws[k + 1].plans[p] == ws[k].plans[p]
  {
    HistoryKeepsInv(ws, cs, times, k);
    assert FollowsAt(ws, cs, times, k);
    SettledPlanStays(ws[k], cs[k], times[k], p);
  }

  /** The steps of a run at which a plan reached the board. */
  ghost predicate AppliedAt(ws: seq<Workspace>, k: nat, p: Id)
    requires k + 1 < |ws|
  {
    p in ws[k].plans && ws[k].plans[p].status == PlanDraft && p in ws[k + 1].plans && ws[k + 1].plans[p].status == PlanApplied
  }

  /** No plan reaches the board twice. */
  lemma AppliedOnce(ws: seq<Workspace>, cs: seq<Command>, times: seq<int>, i: nat, j: nat, p: Id)
    requires IsHistory(ws, cs, times) && WorkspaceInv(ws[0]) && i < j && j + 1 < |ws|
    requires AppliedAt(ws, i, p)
    ensures !AppliedAt(ws, j, p)
  {
    SettledForever(ws, cs, times, i + 1, j, p);
  }

  /** Plan commands move the board only when a draft turns into an applied plan. */
  lemma OnlyApplyingMovesTheBoard(w: Workspace, c: Command, now: int)
    requires RowsKeyed(w.board) && FreshCommand(w, c) && !c.OnBoard? && Next(w, c, now).board != w.board
    ensures c.Applying? && w.active == Some(c.planId) && w.plans[c.planId].status == PlanDraft
    ensures Next(w, c, now).plans[c.planId].status == PlanApplied && Next(w, c, now).log == w.log + [c.planId]
  {
  }

  /** A confirmed application that is sent again is answered and changes nothing, whatever happened in between. */
  lemma ApplyingAgainChangesNothing(
    ws: seq<Workspace>, cs: seq<Command>, times: seq<int>, i: nat, j: nat, p: Id, expected: nat, newIds: seq<Id>, now: int)
    requires IsHistory(ws, cs, times) && WorkspaceInv(ws[0]) && i < j < |ws| && i + 1 < |ws| && AppliedAt(ws, i, p)
    requires |newIds| == |ws[i + 1].plans[p].tasks|
    ensures p in ws[j].plans && |newIds| == |ws[j].plans[p].tasks| && Apply(ws[j], p, expected, newIds, now) == Ok(ws[j])
  {
    SettledForever(ws, cs, times, i + 1, j, p);
  }

  /** From generation to application without interference: the new active draft, if it has a task, applies. */
  lemma GeneratedDraftApplies(w: Workspace, selection: Option<seq<Id>>, intent: Option<Intent>, newPlanId: Id,
                              newIds: seq<Id>, now: int)
    requires WorkspaceInv(w) && newPlanId !in w.plans && Generate(w, selection, intent, newPlanId).Ok?
    requires var w' := Generate(w, selection, intent, newPlanId).value;
             w'.plans[newPlanId].tasks != [] && |newIds| == |w'.plans[newPlanId].tasks| && FreshIds(w.board, newIds)
    ensures var w' := Generate(w, selection, intent, newPlanId).value;
            Apply(w', newPlanId, 1, newIds, now).Ok? && Inv(Apply(w', newPlanId, 1, newIds, now).value.board)
  {
    var p := CreatePlan(w.board, selection).value;
    CreateIsCurrent(w.board, selection);
    CurrentDraftApplies(w.board, p, newIds, now);
    ActiveDraftApplies(Adopted(w, p, newPlanId), p, newPlanId, newIds, now);
  }

  lemma ActiveDraftApplies(w: Workspace, p: Plan, planId: Id, newIds: seq<Id>, now: int)
    requires planId in w.plans && w.plans[planId] == p && AtRevision(w, planId, 1) && w.active == Some(planId)
    requires p.tasks != [] && |newIds| == |p.tasks| && ApplyPlan(w.board, p, newIds, now).Ok?
    ensures Apply(w, planId, 1, newIds, now).Ok?
    ensures Apply(w, planId, 1, newIds, now).value.board == ApplyPlan(w.board, p, newIds, now).value.0
  {
  }
}
