/** Stored plans and the board they act on: drafting, editing and applying as the service does them, step by step. */
module PlanningDesk {
  import opened Sequences
  import opened Records
  import opened ProductionRules
  import opened MachineStates
  import opened Planner
  import opened Tables
  import opened Queues
  import opened ScheduleInputs
  import opened SchedulePlans
  import opened PlanApplication
  import opened PlanDrafts
  import opened BoardClass
  import L = PlanLifecycle
  import BuildTasks
  import B = Board

  /** The workspace the lifecycle names, or the error it names and nothing changed. */
  predicate Answers(reply: L.Reply, error: Option<L.CommandError>, before: L.Workspace, after: L.Workspace) {
    match reply
    case Ok(w) => error == None && after == w
    case Err(e) => error == Some(e) && after == before
  }

  class Desk {
    const board: ProductionBoard
    var plans: map<Id, Plan>
    var revisions: map<Id, nat>
    var successors: map<Id, Id>
    var active: Option<Id>
    var log: seq<Id>

    constructor (board: ProductionBoard)
      ensures this.board == board && Now() == L.Workspace(board.Now(), map[], map[], map[], None, [])
      ensures B.Inv(board.Now()) ==> L.WorkspaceInv(Now())
    {
      this.board, this.plans, revisions, successors, active, log := board, map[], map[], map[], None, [];
    }

    function Now(): L.Workspace
      reads this, board
    {
      L.Workspace(board.Now(), plans, revisions, successors, active, log)
    }

    method GeneratePlan(selection: Option<seq<Id>>, intent: Option<L.Intent>, newPlanId: Id)
      returns (error: Option<L.CommandError>)
      requires B.RowsKeyed(board.Now())
      modifies this
      ensures Answers(L.Generate(old(Now()), selection, intent, newPlanId), error, old(Now()), Now())
    {
      if active.Some? {
        if intent.None? { return Some(L.ReplacementRequired); }
        if !(active.value in revisions && intent.value == L.Intent(active.value, revisions[active.value])) {
          return Some(L.RevisionConflict);
        }
      }
      if Pending(board.orders) == {} { return Some(L.NoPending); }
      var drafted := DraftPlan(selection);
      if drafted.Err? { return Some(L.Failed(drafted.error)); }
      Adopt(drafted.value, newPlanId);
      return None;
    }

    /** Store the new draft as the active one; the one before is superseded. */
    method Adopt(p: Plan, newPlanId: Id)
      modifies this
      ensures Now() == L.Adopted(old(Now()), p, newPlanId)
    {
      if active.Some? {
        if active.value in plans {
          plans := plans[active.value := plans[active.value].(status := PlanSuperseded)];
        }
        successors := successors[active.value := newPlanId];
      }
      plans := plans[newPlanId := p];
      revisions := revisions[newPlanId := 1];
      active := Some(newPlanId);
    }

    method PatchPlan(planId: Id, expected: nat, edits: seq<Edit>) returns (error: Option<L.CommandError>)
      modifies this
      ensures Answers(L.PatchPlan(old(Now()), planId, expected, edits), error, old(Now()), Now())
    {
      if planId !in plans { return Some(L.PlanMissing); }
      if !L.AtRevision(Now(), planId, expected) { return Some(L.RevisionConflict); }
      var failure := UpdateDraft(planId, RevisionOf(plans[planId]), edits);
      if failure.Some? { return Some(L.Failed(failure.value)); }
      revisions := revisions[planId := expected + 1];
      return None;
    }

    method ApplyCommand(planId: Id, expected: nat, newIds: seq<Id>, now: int) returns (error: Option<L.CommandError>)
      requires planId in plans ==> |newIds| == |plans[planId].tasks| && FreshIds(board.Now(), newIds)
      modifies this, board
      ensures Answers(L.Apply(old(Now()), planId, expected, newIds, now), error, old(Now()), Now())
    {
      if planId !in plans { return Some(L.PlanMissing); }
      if plans[planId].status == PlanApplied { return None; }
      if !L.AtRevision(Now(), planId, expected) { return Some(L.RevisionConflict); }
      if active != Some(planId) { return Some(L.NotActive); }
      if plans[planId].tasks == [] { return Some(L.NoFeasible); }
      var failure := ApplyPlan(planId, newIds, now);
      if failure.Some? { return Some(L.Failed(failure.value)); }
      revisions := revisions[planId := expected + 1];
      active := None;
      log := log + [planId];
      return None;
    }

    method ClosePlan(planId: Id, expected: nat, confirmed: bool) returns (error: Option<L.CommandError>)
      modifies this
      ensures Answers(L.Close(old(Now()), planId, expected, confirmed), error, old(Now()), Now())
    {
      if planId !in plans { return Some(L.PlanMissing); }
      if !L.AtRevision(Now(), planId, expected) { return Some(L.RevisionConflict); }
      if active != Some(planId) { return Some(L.NotActive); }
      if !confirmed { return Some(L.NotConfirmed); }
      plans := plans[planId := plans[planId].(status := PlanClosed)];
      revisions := revisions[planId := expected + 1];
      active := None;
      return None;
    }

    /** create_schedule_plan, up to storing the plan. */
    method DraftPlan(selection: Option<seq<Id>>) returns (r: Result<Plan, PlanError>)
      requires B.RowsKeyed(board.Now())
      ensures r == CreatePlan(board.Now(), selection)
      ensures r.Ok? ==> CurrentDraft(board.Now(), r.value)
    {
      var orders := LoadOrders(board.Now());
      if selection.Some? {
        var ids := selection.value;
        if ids == [] || !NoDuplicates(ids) || !(SetOf(ids) <= Pending(board.orders)) {
          return Err(SelectionChanged);
        }
        orders := Filter((o: Order) => o.id in ids, orders);
      }
      InputsDistinct(board.Now(), selection);
      LoadedMachines(board.Now());
      IdsOfRows(board.Now(), orders);
      var machines := LoadMachines(board.Now());
      var tasks, unassigned := BuildTasks.Build(orders, machines);
      var fingerprint := FingerprintOf(board.Now(), SetOf(OrderIds(orders)), selection.Some?);
      CreateIsCurrent(board.Now(), selection);
      return Ok(Plan(PlanDraft, OrderIds(orders), fingerprint, Entries(tasks), LeftOrders(unassigned)));
    }

    method CheckEdits(p: Plan, edits: seq<Edit>) returns (r: Result<seq<Entry>, PlanError>)
      ensures r == EditedEntries(board.Now(), p, edits)
    {
      var taken: set<Id> := {};
      var normalized: seq<Entry> := [];
      var i := 0;
      assert edits[..0] == [];
      while i < |edits|
        invariant 0 <= i <= |edits|
        invariant EditedEntries(board.Now(), p, edits[..i]) == Ok(normalized)
        invariant taken == SetOf(AllIds(normalized))
      {
        assert edits[..i + 1][..i] == edits[..i];
        var edit := edits[i];
        var checked := CheckedEntry(board.Now(), p, taken, edit);
        if checked.Err? {
          RefusedForGood(board.Now(), p, edits, i + 1);
          return Err(checked.error);
        }
        var entry := checked.value;
        assert (normalized + [entry])[..|normalized|] == normalized;
        SetOfAppend(AllIds(normalized), edit.orderIds);
        taken := taken + SetOf(edit.orderIds);
        normalized := normalized + [entry];
        i := i + 1;
      }
      assert edits[..i] == edits;
      return Ok(normalized);
    }

    method NotTaken(inputIds: seq<Id>, taken: set<Id>) returns (left: seq<LeftOrder>)
      ensures left == LeftByHand(inputIds, taken)
    {
      left := [];
      for i := 0 to |inputIds|
        invariant left == LeftByHand(inputIds[..i], taken)
      {
        assert inputIds[..i + 1][..i] == inputIds[..i];
        if inputIds[i] !in taken {
          left := left + [LeftOrder(inputIds[i], NotArranged)];
        }
      }
      assert inputIds[..|inputIds|] == inputIds;
    }

    method UpdateDraft(planId: Id, revision: Revision, edits: seq<Edit>) returns (error: Option<PlanError>)
      requires planId in plans
      modifies `plans
      ensures match SchedulePlans.UpdateDraft(board.Now(), old(plans)[planId], revision, edits)
              case Err(e) => error == Some(e) && plans == old(plans)
              case Ok(p) =>
                && error == None && plans == old(plans)[planId := p]
                && (Coherent(old(plans)[planId]) ==> Coherent(p))
    {
      var p := plans[planId];
      if p.status != PlanDraft || revision != RevisionOf(p) { return Some(NotDraft); }
      if IsStale(board.Now(), p) { return Some(Stale); }
      var checked := CheckEdits(p, edits);
      if checked.Err? { return Some(checked.error); }
      var left := NotTaken(p.inputIds, SetOf(AllIds(checked.value)));
      plans := plans[planId := p.(tasks := checked.value, unassigned := left)];
      if Coherent(p) { EditKeepsCoherent(board.Now(), p, revision, edits); }
      return None;
    }

    /** The first complaint about the plan's tasks, and all the orders they name. */
    method CheckEntries(p: Plan) returns (refusal: Option<PlanError>, ids: seq<Id>)
      requires forall e :: e in p.tasks ==> e.machineId in board.machines
      ensures refusal == FirstEntryError(board.Now(), p, p.tasks)
      ensures refusal.None? ==> ids == AllIds(p.tasks)
    {
      ids := [];
      var i := 0;
      while i < |p.tasks|
        invariant 0 <= i <= |p.tasks|
        invariant Passed(board.Now(), p, i, ids)
      {
        refusal := EntryError(board.Now(), p, p.tasks[i]);
        PassedOneMore(board.Now(), p, i, ids);
        if refusal.Some? {
          return;
        }
        ids := ids + p.tasks[i].orderIds;
        i := i + 1;
      }
      assert p.tasks[..i] == p.tasks;
      refusal := None;
    }

    /** The position after the last task each machine of the plan ever had. */
    method NextPositions(p: Plan) returns (next: map<Id, int>)
      ensures UpToDate(board.tasks, next) && forall k :: 0 <= k < |p.tasks| ==> p.tasks[k].machineId in next
    {
      next := map[];
      for i := 0 to |p.tasks|
        invariant UpToDate(board.tasks, next) && forall k :: 0 <= k < i ==> p.tasks[k].machineId in next
      {
        var m := p.tasks[i].machineId;
        next := next[m := NextPosition(board.tasks, On(board.tasks, m))];
      }
    }

    method Place(p: Plan, newIds: seq<Id>, now: int)
      requires |newIds| == |p.tasks| && FreshIds(board.Now(), newIds)
      requires forall i :: i in AllIds(p.tasks) ==> i in board.orders
      modifies board
      ensures board.Now() == PlaceAll(old(board.Now()), p.tasks, newIds, now)
    {
      var next := NextPositions(p);
      ghost var start := board.Now();
      var i := 0;
      while i < |p.tasks|
        invariant 0 <= i <= |p.tasks|
        invariant board.Now() == PlacedFirst(start, p.tasks, newIds, now, i)
        invariant UpToDate(board.tasks, next) && forall k :: 0 <= k < |p.tasks| ==> p.tasks[k].machineId in next
      {
        PlaceStep(start, p.tasks, newIds, now, i);
        next := PlaceNext(p.tasks[i], next, newIds[i], now);
        i := i + 1;
      }
      assert p.tasks[..i] == p.tasks && newIds[..i] == newIds;
    }

    method PlaceNext(entry: Entry, next: map<Id, int>, newId: Id, now: int) returns (next': map<Id, int>)
      requires entry.machineId in next && newId !in board.tasks && forall i :: i in entry.orderIds ==> i in board.orders
      requires UpToDate(board.tasks, next)
      modifies board
      ensures board.Now() == PlaceOne(old(board.Now()), entry, newId, now)
      ensures next'.Keys == next.Keys && UpToDate(board.tasks, next')
    {
      var task := Task(newId, entry.machineId, next[entry.machineId], TaskWaiting, now);
      NextUpToDate(board.tasks, next, task);
      next' := next[task.machineId := task.position + 1];
      board.AddTask(task);
      board.Link(entry.orderIds, OrderProducing, Some(newId), now);
    }

    method ApplyPlan(planId: Id, newIds: seq<Id>, now: int) returns (error: Option<PlanError>)
      requires planId in plans && |newIds| == |plans[planId].tasks| && FreshIds(board.Now(), newIds)
      modifies `plans, board
      ensures match SchedulePlans.ApplyPlan(old(board.Now()), old(plans)[planId], newIds, now)
              case Err(e) => error == Some(e) && plans == old(plans) && board.Now() == old(board.Now())
              case Ok(r) => error == None && board.Now() == r.0 && plans == old(plans)[planId := r.1]
      ensures old(B.Inv(board.Now())) ==> B.Inv(board.Now())
    {
      var p := plans[planId];
      if p.status != PlanDraft { return Some(NotDraft); }
      if p.fingerprint.rules != Some(RULE_VERSION) { return Some(RulesChanged); }
      if p.tasks == [] { return Some(NothingToApply); }
      var outdated := Outdated(board.Now(), p);
      if outdated.Some? { return outdated; }
      var refusal, ids := CheckEntries(p);
      if refusal.Some? { return refusal; }
      if !NoDuplicates(ids) { return Some(Repeated); }
      if exists i :: i in ids && !(i in board.orders && B.Unlinked(board.orders[i])) { return Some(Taken); }
      ghost var before := board.Now();
      Place(p, newIds, now);
      plans := plans[planId := p.(status := PlanApplied)];
      if B.Inv(before) { ApplyKeepsInv(before, p, newIds, now); }
      return None;
    }
  }

  /** Once an edit is refused the whole update is refused with that error. */
  lemma {:induction false} RefusedForGood(s: B.State, p: Plan, edits: seq<Edit>, k: nat)
    requires k <= |edits| && EditedEntries(s, p, edits[..k]).Err?
    ensures EditedEntries(s, p, edits) == EditedEntries(s, p, edits[..k])
    decreases |edits| - k
  {
    if k == |edits| {
      assert edits[..k] == edits;
    } else {
      assert edits[..k + 1][..k] == edits[..k];
      RefusedForGood(s, p, edits, k + 1);
    }
  }

  lemma {:induction false} FirstErrorStands(s: B.State, p: Plan, entries: seq<Entry>, k: nat)
    requires k <= |entries| && forall e :: e in entries ==> e.machineId in s.machines
    requires FirstEntryError(s, p, entries[..k]).Some?
    ensures FirstEntryError(s, p, entries) == FirstEntryError(s, p, entries[..k])
    decreases |entries| - k
  {
    if k == |entries| {
      assert entries[..k] == entries;
    } else {
      assert entries[..k + 1][..k] == entries[..k];
      FirstErrorStands(s, p, entries, k + 1);
    }
  }

  /** The first i entries pass, and these are their orders. */
  ghost predicate Passed(s: B.State, p: Plan, i: nat, ids: seq<Id>)
    requires i <= |p.tasks| && forall e :: e in p.tasks ==> e.machineId in s.machines
  {
    FirstEntryError(s, p, p.tasks[..i]).None? && ids == AllIds(p.tasks[..i])
  }

  lemma PassedOneMore(s: B.State, p: Plan, i: nat, ids: seq<Id>)
    requires (forall e :: e in p.tasks ==> e.machineId in s.machines) && i < |p.tasks| && Passed(s, p, i, ids)
    ensures match EntryError(s, p, p.tasks[i])
            case None => Passed(s, p, i + 1, ids + p.tasks[i].orderIds)
            case Some(error) => FirstEntryError(s, p, p.tasks) == Some(error)
  {
    assert p.tasks[..i + 1][..i] == p.tasks[..i];
    if EntryError(s, p, p.tasks[i]).Some? {
      FirstErrorStands(s, p, p.tasks, i + 1);
    }
  }

  /** What the positions handed out next must be. */
  ghost predicate UpToDate(tasks: Tasks, next: map<Id, int>) {
    forall m :: m in next ==> next[m] == NextPosition(tasks, On(tasks, m))
  }

  lemma NextUpToDate(tasks: Tasks, next: map<Id, int>, task: Task)
    requires UpToDate(tasks, next) && task.machineId in next && task.id !in tasks
    requires task.position == next[task.machineId]
    ensures UpToDate(tasks[task.id := task], next[task.machineId := task.position + 1])
  {
    forall m | m in next
      ensures NextPosition(tasks[task.id := task], On(tasks[task.id := task], m))
              == next[m] + if m == task.machineId then 1 else 0
    {
      NextPositionAfter(tasks, task, m);
    }
  }

  /** The board after the first i entries. */
  ghost function PlacedFirst(s: B.State, entries: seq<Entry>, newIds: seq<Id>, now: int, i: nat): B.State
    requires |newIds| == |entries| && i <= |entries|
  {
    PlaceAll(s, entries[..i], newIds[..i], now)
  }

  lemma PlaceStep(s: B.State, entries: seq<Entry>, newIds: seq<Id>, now: int, i: nat)
    requires |newIds| == |entries| && i < |entries| && FreshIds(s, newIds)
    requires forall k :: k in AllIds(entries) ==> k in s.orders
    ensures var before := PlacedFirst(s, entries, newIds, now, i);
            && PlacedFirst(s, entries, newIds, now, i + 1) == PlaceOne(before, entries[i], newIds[i], now)
            && newIds[i] !in before.tasks && forall k :: k in entries[i].orderIds ==> k in before.orders
  {
    assert entries[..i + 1][..i] == entries[..i] && newIds[..i + 1][..i] == newIds[..i];
    PlaceAllKeys(s, entries[..i], newIds[..i], now);
    assert newIds[i] in newIds;
    assert entries[i] in entries;
    EntryIdsAmongAll(entries, entries[i]);
  }
}
