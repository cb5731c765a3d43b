/** Drafts from creation through editing to application: nothing is lost on the way, and a current draft always applies. */
module PlanDrafts {
  import opened Sequences
  import opened Records
  import opened ProductionRules
  import opened Planner
  import opened PlannerProperties
  import opened PlanTheorems
  import opened Tables
  import opened Queues
  import opened Board
  import opened ScheduleInputs
  import opened SchedulePlans
  import opened PlanApplication

  function LeftIds(us: seq<LeftOrder>): (r: seq<Id>)
    ensures |r| == |us| && forall k :: 0 <= k < |us| ==> r[k] == us[k].orderId
  {
    seq(|us|, k requires 0 <= k < |us| => us[k].orderId)
  }

  /** The plan's tasks and its unassigned orders share out its input orders, and its snapshot covers them. */
  ghost predicate Coherent(p: Plan) {
    && NoDuplicates(p.inputIds) && p.fingerprint.stamps.Keys == SetOf(p.inputIds)
    && multiset(AllIds(p.tasks)) + multiset(LeftIds(p.unassigned)) == multiset(p.inputIds)
  }

  /** The machine is active and accepts the entry's pending orders at the stated width. */
  ghost predicate EntrySound(s: State, p: Plan, e: Entry) {
    && e.machineId in ActiveMachines(s) && e.orderIds != []
    && (forall i :: i in e.orderIds ==> i in Pending(s.orders) && i in p.inputIds)
    && ValidateBatch(s.machines[e.machineId], Rows(s.orders, e.orderIds)) == Ok(e.totalWidth)
  }

  /** A draft that nothing has overtaken. */
  ghost predicate CurrentDraft(s: State, p: Plan) {
    && p.status == PlanDraft && Coherent(p) && !IsStale(s, p)
    && forall e :: e in p.tasks ==> EntrySound(s, p, e)
  }

  // ----- editing -----

  /** Looking up an input order of a draft that is not stale never misses. */
  lemma LookupsHit(s: State, p: Plan)
    requires Coherent(p) && !IsStale(s, p)
    ensures SetOf(p.inputIds) == CoveredNow(s, p)
    ensures forall i :: i in p.inputIds ==> i in Pending(s.orders)
  {
    assert Stamps(s.orders, CoveredNow(s, p)).Keys == CoveredNow(s, p);
    forall i | i in p.inputIds
      ensures i in Pending(s.orders)
    {
      assert i in SetOf(p.inputIds);
    }
  }

  lemma {:induction false} EditedEntriesSound(s: State, p: Plan, edits: seq<Edit>)
    requires EditedEntries(s, p, edits).Ok?
    ensures var entries := EditedEntries(s, p, edits).value;
            Apart(entries) && forall e :: e in entries ==> EntrySound(s, p, e)
  {
    if edits != [] {
      var n := |edits| - 1;
      EditedEntriesSound(s, p, edits[..n]);
      var done := EditedEntries(s, p, edits[..n]).value;
      NextEditSound(s, p, done, edits[n]);
    }
  }

  lemma NextEditSound(s: State, p: Plan, done: seq<Entry>, edit: Edit)
    requires Apart(done) && CheckedEntry(s, p, SetOf(AllIds(done)), edit).Ok?
    ensures var e := CheckedEntry(s, p, SetOf(AllIds(done)), edit).value; EntrySound(s, p, e) && Apart(done + [e])
  {
    var e := CheckedEntry(s, p, SetOf(AllIds(done)), edit).value;
    CheckedEntrySound(s, p, SetOf(AllIds(done)), edit);
    assert (done + [e])[..|done|] == done;
    NoDuplicatesJoined(AllIds(done), e.orderIds);
  }

  lemma CheckedEntrySound(s: State, p: Plan, taken: set<Id>, edit: Edit)
    requires CheckedEntry(s, p, taken, edit).Ok?
    ensures var e := CheckedEntry(s, p, taken, edit).value;
            EntrySound(s, p, e) && NoDuplicates(e.orderIds) && forall i :: i in e.orderIds ==> i !in taken
  {
    var batch := Rows(s.orders, edit.orderIds);
    assert ValidateBatch(s.machines[edit.machineId], batch).Ok?;
    NonEmptyOrders(s.machines[edit.machineId], batch);
  }

  lemma NonEmptyOrders(m: Machine, orders: seq<Order>)
    requires ValidateBatch(m, orders).Ok?
    ensures orders != []
  {
  }

  lemma NoDuplicatesJoined(a: seq<Id>, b: seq<Id>)
    requires NoDuplicates(a) && NoDuplicates(b) && forall i :: i in b ==> i !in a
    ensures NoDuplicates(a + b)
  {
    var c := a + b;
    forall i, j | 0 <= i < j < |c|
      ensures c[i] != c[j]
    {
      assert j >= |a| ==> c[j] in b;
      assert i < |a| ==> c[i] in a;
    }
  }

  lemma {:induction false} LeftByHandIds(inputIds: seq<Id>, taken: set<Id>)
    ensures LeftIds(LeftByHand(inputIds, taken)) == Filter((i: Id) => i !in taken, inputIds)
  {
    if inputIds != [] {
      LeftByHandIds(inputIds[..|inputIds| - 1], taken);
    }
  }

  lemma {:induction false} AllIdsFromEntries(s: State, p: Plan, entries: seq<Entry>)
    requires forall e :: e in entries ==> EntrySound(s, p, e)
    ensures forall i :: i in AllIds(entries) ==> i in p.inputIds && i in Pending(s.orders)
  {
    if entries != [] {
      PrefixMembers(entries);
      AllIdsFromEntries(s, p, entries[..|entries| - 1]);
    }
  }

  /** Taking some of the inputs leaves the rest. */
  lemma TakenAndLeft(inputIds: seq<Id>, taken: seq<Id>)
    requires NoDuplicates(inputIds) && NoDuplicates(taken) && forall i :: i in taken ==> i in inputIds
    ensures multiset(taken) + multiset(LeftIds(LeftByHand(inputIds, SetOf(taken)))) == multiset(inputIds)
  {
    var inside, outside := (i: Id) => i in SetOf(taken), (i: Id) => i !in SetOf(taken);
    LeftByHandIds(inputIds, SetOf(taken));
    FilterSplits(inside, outside, inputIds);
    FilterMembers(inside, inputIds);
    FilterNoDuplicates(inside, inputIds);
    SameMembersSameMultiset(taken, Filter(inside, inputIds));
  }

  /** Every accepted edit, on whatever board, keeps the partition of the input orders. */
  lemma EditKeepsCoherent(s: State, p: Plan, revision: Revision, edits: seq<Edit>)
    requires Coherent(p) && UpdateDraft(s, p, revision, edits).Ok?
    ensures Coherent(UpdateDraft(s, p, revision, edits).value)
  {
    var entries := EditedEntries(s, p, edits).value;
    EditedEntriesSound(s, p, edits);
    AllIdsFromEntries(s, p, entries);
    TakenAndLeft(p.inputIds, AllIds(entries));
  }

  /** On an unchanged board an edited draft is still current. */
  lemma EditKeepsCurrent(s: State, p: Plan, revision: Revision, edits: seq<Edit>)
    requires CurrentDraft(s, p) && UpdateDraft(s, p, revision, edits).Ok?
    ensures CurrentDraft(s, UpdateDraft(s, p, revision, edits).value)
  {
    var p' := UpdateDraft(s, p, revision, edits).value;
    EditKeepsCoherent(s, p, revision, edits);
    EditedEntriesSound(s, p, edits);
    assert CoveredNow(s, p') == CoveredNow(s, p);
    assert forall e :: EntrySound(s, p, e) ==> EntrySound(s, p', e);
  }

  /** The width a draft divides by is positive. */
  lemma AcceptedMachineHasWidth(m: Machine, orders: seq<Order>)
    requires ValidateBatch(m, orders).Ok?
    ensures m.maxWidth > 0.0
  {
    var ps := ProfilesOf(orders);
    AcceptedExactlyWhen(m, ps);
    assert ps[0] in ps;
    forall p | p in ps
      ensures WidthValue(p) >= 0.0
    {
      ProfileMembers(orders);
    }
    SumByNonNegative(WidthValue, ps);
    ProfileMembers(orders);
    assert WidthValue(ps[0]) > 0.0;
  }

  // ----- applying a current draft -----

  lemma CurrentNotOutdated(s: State, p: Plan)
    requires CurrentDraft(s, p)
    ensures Outdated(s, p).None?
  {
    LookupsHit(s, p);
    forall e | e in p.tasks
      ensures e.machineId in s.machines
    {
      assert EntrySound(s, p, e);
    }
    SnapshotMatches(s, p);
  }

  lemma SnapshotMatches(s: State, p: Plan)
    requires SetOf(p.inputIds) == CoveredNow(s, p) && !IsStale(s, p)
    requires forall e :: e in p.tasks ==> e.machineId in s.machines
    ensures Outdated(s, p).None?
  {
    var ids := CoveredNow(s, p);
    var f := FingerprintOf(s, ids, p.fingerprint.scoped);
    assert Existing(s, p) == ids;
    assert forall i :: i in ids ==> f.stamps[i] == s.orders[i].updatedAt;
  }

  lemma PartNoDuplicates(part: seq<Id>, rest: multiset<Id>, whole: seq<Id>)
    requires NoDuplicates(whole) && multiset(part) + rest == multiset(whole)
    ensures NoDuplicates(part)
  {
    forall i, j | 0 <= i < j < |part|
      ensures part[i] != part[j]
    {
      if part[i] == part[j] {
        CountedTwice(part, i, j);
        CountedOnce(whole, part[i]);
      }
    }
  }

  lemma CurrentEntriesPass(s: State, p: Plan)
    requires CurrentDraft(s, p)
    ensures forall e :: e in p.tasks ==> e.machineId in s.machines && EntryError(s, p, e).None?
  {
    forall e | e in p.tasks
      ensures e.machineId in s.machines && EntryError(s, p, e).None?
    {
      assert EntrySound(s, p, e);
    }
  }

  /** A current draft with at least one task passes every check of application. */
  lemma CurrentApplies(s: State, p: Plan)
    requires CurrentDraft(s, p) && p.tasks != []
    ensures ApplyError(s, p) == None
  {
    CurrentNotOutdated(s, p);
    CurrentEntriesPass(s, p);
    EntriesChecked(s, p, p.tasks);
    PartNoDuplicates(AllIds(p.tasks), multiset(LeftIds(p.unassigned)), p.inputIds);
    AllIdsFromEntries(s, p, p.tasks);
  }

  // ----- creating -----

  lemma {:induction false} OrderIdsPermutation(a: seq<Order>, b: seq<Order>)
    requires multiset(a) == multiset(b)
    ensures multiset(OrderIds(a)) == multiset(OrderIds(b))
    decreases |a|
  {
    if a == [] {
      assert |multiset(b)| == 0;
    } else {
      var x, front := a[|a| - 1], a[..|a| - 1];
      assert a == front + [x];
      assert x in multiset(b);
      var i :| 0 <= i < |b| && b[i] == x;
      assert b == b[..i] + [x] + b[i + 1..];
      assert multiset(b[..i] + b[i + 1..]) == multiset(b) - multiset{x};
      OrderIdsPermutation(front, b[..i] + b[i + 1..]);
      IdsAround(front, x, []);
      IdsAround(b[..i], x, b[i + 1..]);
      assert front + [x] + [] == a && front + [] == front;
    }
  }

  lemma IdsAround(a: seq<Order>, x: Order, b: seq<Order>)
    ensures multiset(OrderIds(a + [x] + b)) == multiset(OrderIds(a + b)) + multiset{x.id}
  {
    assert OrderIds(a + [x] + b) == OrderIds(a) + [x.id] + OrderIds(b);
    assert OrderIds(a + b) == OrderIds(a) + OrderIds(b);
  }

  lemma {:induction false} EntryIds(tasks: seq<PlannedTask>)
    ensures AllIds(Entries(tasks)) == OrderIds(AllOrders(tasks))
  {
    if tasks != [] {
      var n := |tasks| - 1;
      EntryIds(tasks[..n]);
      assert Entries(tasks)[..n] == Entries(tasks[..n]);
      assert OrderIds(AllOrders(tasks[..n]) + tasks[n].orders) == OrderIds(AllOrders(tasks[..n])) + OrderIds(tasks[n].orders);
    }
  }

  lemma DraftSharesOut(s: State, orders: seq<Order>, scoped: bool)
    requires RowsKeyed(s) && DistinctIds(orders) && forall o :: o in orders ==> o.id in s.orders
    ensures var p := Draft(s, orders, scoped);
            multiset(AllIds(p.tasks)) + multiset(LeftIds(p.unassigned)) == multiset(p.inputIds)
  {
    var machines := LoadMachines(s);
    LoadedMachines(s);
    PlanConserves(orders, machines);
    SharesOut(orders, Planner.Tasks(orders, machines), Left(orders, machines), machines);
  }

  lemma SharesOut(orders: seq<Order>, tasks: seq<PlannedTask>, left: seq<Profile>, machines: seq<LoadedMachine>)
    requires multiset(AllOrders(tasks)) + multiset(OrdersOf(left)) == multiset(orders)
    ensures multiset(AllIds(Entries(tasks))) + multiset(LeftIds(LeftOrders(WithReasons(left, machines))))
            == multiset(OrderIds(orders))
  {
    OrderIdsPermutation(AllOrders(tasks) + OrdersOf(left), orders);
    EntryIds(tasks);
    assert OrderIds(AllOrders(tasks) + OrdersOf(left)) == OrderIds(AllOrders(tasks)) + OrderIds(OrdersOf(left));
    assert LeftIds(LeftOrders(WithReasons(left, machines))) == OrderIds(OrdersOf(left));
  }

  lemma {:induction false} TaskOrdersAmongAll(tasks: seq<PlannedTask>, t: PlannedTask)
    requires t in tasks
    ensures forall o :: o in t.orders ==> o in AllOrders(tasks)
  {
    var n := |tasks| - 1;
    if tasks[n] != t {
      assert t in tasks[..n];
      TaskOrdersAmongAll(tasks[..n], t);
    }
  }

  lemma PlannedFromInputs(orders: seq<Order>, machines: seq<LoadedMachine>, t: PlannedTask)
    requires DistinctIds(orders) && DistinctMachines(machines) && t in Planner.Tasks(orders, machines)
    ensures forall o :: o in t.orders ==> o in orders
  {
    PlanConserves(orders, machines);
    TaskOrdersAmongAll(Planner.Tasks(orders, machines), t);
    forall o | o in t.orders
      ensures o in orders
    {
      assert o in multiset(AllOrders(Planner.Tasks(orders, machines)));
      assert o in multiset(orders);
    }
  }

  /** The rows behind a batch of loaded orders are those orders. */
  lemma RowsOfIds(s: State, orders: seq<Order>)
    requires forall o :: o in orders ==> o.id in s.orders && s.orders[o.id] == o
    ensures forall i :: i in OrderIds(orders) ==> i in s.orders
    ensures Rows(s.orders, OrderIds(orders)) == orders
  {
    forall k | 0 <= k < |orders|
      ensures orders[k].id in s.orders && s.orders[orders[k].id] == orders[k]
    {
      assert orders[k] in orders;
    }
  }

  lemma DraftEntrySound(s: State, orders: seq<Order>, p: Plan, t: PlannedTask)
    requires RowsKeyed(s) && DistinctIds(orders) && p.inputIds == OrderIds(orders)
    requires forall o :: o in orders ==> o.id in Pending(s.orders) && s.orders[o.id] == o
    requires DistinctMachines(LoadMachines(s)) && t in Planner.Tasks(orders, LoadMachines(s))
    ensures EntrySound(s, p, EntryOf(t))
  {
    LoadedMachines(s);
    PlanRefinesRules(orders, LoadMachines(s), t);
    PlannedFromInputs(orders, LoadMachines(s), t);
    RowsOfIds(s, t.orders);
    IdsAmongInputs(s, orders, t.orders);
  }

  lemma IdsAmongInputs(s: State, orders: seq<Order>, batch: seq<Order>)
    requires forall o :: o in orders ==> o.id in Pending(s.orders)
    requires forall o :: o in batch ==> o in orders
    ensures forall i :: i in OrderIds(batch) ==> i in Pending(s.orders) && i in OrderIds(orders)
  {
    forall i | i in OrderIds(batch)
      ensures i in Pending(s.orders) && i in OrderIds(orders)
    {
      var k :| 0 <= k < |batch| && batch[k].id == i;
      assert batch[k] in orders;
      var j :| 0 <= j < |orders| && orders[j] == batch[k];
      assert OrderIds(orders)[j] == i;
    }
  }

  lemma InputsCovered(s: State, selection: Option<seq<Id>>, p: Plan)
    requires RowsKeyed(s) && InputOrders(s, selection).Ok?
    requires p.inputIds == OrderIds(InputOrders(s, selection).value) && p.fingerprint.scoped == selection.Some?
    ensures CoveredNow(s, p) == SetOf(p.inputIds)
  {
    var orders := InputOrders(s, selection).value;
    InputsDistinct(s, selection);
    forall i
      ensures i in CoveredNow(s, p) <==> i in p.inputIds
    {
      if i in p.inputIds {
        var k :| 0 <= k < |orders| && orders[k].id == i;
        assert orders[k] in orders;
      }
      if i in CoveredNow(s, p) && selection.None? {
        assert s.orders[i] in orders;
        var k :| 0 <= k < |orders| && orders[k] == s.orders[i];
        assert OrderIds(orders)[k] == i;
      }
    }
  }

  /** Whatever is drafted is current: a partition of its inputs into accepted tasks and unassigned orders. */
  lemma CreateIsCurrent(s: State, selection: Option<seq<Id>>)
    requires RowsKeyed(s) && CreatePlan(s, selection).Ok?
    ensures CurrentDraft(s, CreatePlan(s, selection).value)
  {
    var orders, p := InputOrders(s, selection).value, CreatePlan(s, selection).value;
    InputsDistinct(s, selection);
    InputsCovered(s, selection, p);
    DraftCoherent(s, orders, selection.Some?);
    DraftEntriesSound(s, orders, selection.Some?);
  }

  lemma DraftCoherent(s: State, orders: seq<Order>, scoped: bool)
    requires RowsKeyed(s) && DistinctIds(orders) && forall o :: o in orders ==> o.id in s.orders
    ensures Coherent(Draft(s, orders, scoped))
  {
    DraftSharesOut(s, orders, scoped);
    IdsOfRows(s, orders);
  }

  lemma DraftEntriesSound(s: State, orders: seq<Order>, scoped: bool)
    requires RowsKeyed(s) && DistinctIds(orders)
    requires forall o :: o in orders ==> o.id in s.orders
    requires forall o :: o in orders ==> o.id in Pending(s.orders) && s.orders[o.id] == o
    ensures forall e :: e in Draft(s, orders, scoped).tasks ==> EntrySound(s, Draft(s, orders, scoped), e)
  {
    var p := Draft(s, orders, scoped);
    LoadedMachines(s);
    var tasks := Planner.Tasks(orders, LoadMachines(s));
    forall k | 0 <= k < |tasks|
      ensures EntrySound(s, p, EntryOf(tasks[k]))
    {
      DraftEntrySound(s, orders, p, tasks[k]);
    }
    EntriesFromTasks(s, p, tasks);
  }

  lemma EntriesFromTasks(s: State, p: Plan, tasks: seq<PlannedTask>)
    requires forall k :: 0 <= k < |tasks| ==> EntrySound(s, p, EntryOf(tasks[k]))
    ensures forall e :: e in Entries(tasks) ==> EntrySound(s, p, e)
  {
  }

  // ----- from creation to application -----

  /** A series of edits by hand, each against the revision before it. */
  function EditAll(s: State, p: Plan, batches: seq<seq<Edit>>): Result<Plan, PlanError> {
    if batches == [] then Ok(p)
    else
      match EditAll(s, p, batches[..|batches| - 1])
      case Err(e) => Err(e)
      case Ok(q) => UpdateDraft(s, q, RevisionOf(q), batches[|batches| - 1])
  }

  lemma {:induction false} EditsKeepCurrent(s: State, p: Plan, batches: seq<seq<Edit>>)
    requires CurrentDraft(s, p) && EditAll(s, p, batches).Ok?
    ensures CurrentDraft(s, EditAll(s, p, batches).value)
    ensures EditAll(s, p, batches).value.inputIds == p.inputIds
  {
    if batches != [] {
      var n := |batches| - 1;
      EditsKeepCurrent(s, p, batches[..n]);
      var q := EditAll(s, p, batches[..n]).value;
      EditKeepsCurrent(s, q, RevisionOf(q), batches[n]);
    }
  }

  /**
   * A plan created on a sound board, edited by hand any number of times, and left with a task, applies: the board
   * stays sound, every task of the plan is there, and of the input orders exactly the unassigned ones are still pending.
   */
  lemma GenerateEditApply(s: State, selection: Option<seq<Id>>, batches: seq<seq<Edit>>, newIds: seq<Id>, now: int)
    requires Inv(s) && CreatePlan(s, selection).Ok? && EditAll(s, CreatePlan(s, selection).value, batches).Ok?
    requires var p := EditAll(s, CreatePlan(s, selection).value, batches).value;
             p.tasks != [] && |newIds| == |p.tasks| && FreshIds(s, newIds)
    ensures var p := EditAll(s, CreatePlan(s, selection).value, batches).value;
            var applied := ApplyPlan(s, p, newIds, now);
            && applied.Ok? && Inv(applied.value.0)
            && (forall k :: 0 <= k < |newIds| ==> IsPlaced(applied.value.0, p.tasks[k], newIds[k]))
            && Pending(applied.value.0.orders) * SetOf(p.inputIds) == SetOf(LeftIds(p.unassigned))
  {
    var p := EditAll(s, CreatePlan(s, selection).value, batches).value;
    CreateIsCurrent(s, selection);
    EditsKeepCurrent(s, CreatePlan(s, selection).value, batches);
    CurrentDraftApplies(s, p, newIds, now);
  }

  lemma CurrentDraftApplies(s: State, p: Plan, newIds: seq<Id>, now: int)
    requires Inv(s) && CurrentDraft(s, p) && p.tasks != [] && |newIds| == |p.tasks| && FreshIds(s, newIds)
    ensures var applied := ApplyPlan(s, p, newIds, now);
            && applied.Ok? && Inv(applied.value.0)
            && (forall k :: 0 <= k < |newIds| ==> IsPlaced(applied.value.0, p.tasks[k], newIds[k]))
            && Pending(applied.value.0.orders) * SetOf(p.inputIds) == SetOf(LeftIds(p.unassigned))
  {
    CurrentApplies(s, p);
    ApplyKeepsInv(s, p, newIds, now);
    AcceptedIsPlaceable(s, p);
    forall k | 0 <= k < |newIds|
      ensures IsPlaced(PlaceAll(s, p.tasks, newIds, now), p.tasks[k], newIds[k])
    {
      EntryIsPlaced(s, p.tasks, newIds, now, k);
    }
    LookupsHit(s, p);
    ApplyTakesOrders(s, p.tasks, newIds, now);
    Complement(p.inputIds, AllIds(p.tasks), LeftIds(p.unassigned));
    assert Pending(s.orders) * SetOf(p.inputIds) == SetOf(p.inputIds);
  }

  lemma Complement(whole: seq<Id>, a: seq<Id>, b: seq<Id>)
    requires NoDuplicates(whole) && multiset(a) + multiset(b) == multiset(whole)
    ensures SetOf(whole) - SetOf(a) == SetOf(b)
  {
    forall i
      ensures i in whole && i !in a <==> i in b
    {
      CountedOnce(whole, i);
      assert i in whole <==> i in multiset(whole);
      assert i in a <==> multiset(a)[i] > 0;
      assert i in b <==> multiset(b)[i] > 0;
    }
  }

  /** A plan applies only on the snapshot it was made from: what it saw then is what is there now. */
  lemma AppliedSeesSnapshot(s0: State, selection: Option<seq<Id>>, s1: State, p: Plan)
    requires RowsKeyed(s0) && CreatePlan(s0, selection).Ok?
    requires p.inputIds == CreatePlan(s0, selection).value.inputIds
    requires p.fingerprint == CreatePlan(s0, selection).value.fingerprint
    requires ApplyError(s1, p).None?
    ensures var ids := SetOf(p.inputIds);
            && CoveredNow(s1, p) == ids && Contents(s1.orders, ids) == Contents(s0.orders, ids)
            && Stamps(s1.orders, ids) == Stamps(s0.orders, ids)
            && ActiveMachines(s1) == ActiveMachines(s0)
            && forall m :: m in ActiveMachines(s0) ==> PrintOf(s1, m) == PrintOf(s0, m)
  {
    InputsDistinct(s0, selection);
    IdsOfRows(s0, InputOrders(s0, selection).value);
    SnapshotSeen(s0, s1, p);
  }

  lemma SnapshotSeen(s0: State, s1: State, p: Plan)
    requires SetOf(p.inputIds) <= s0.orders.Keys
    requires p.fingerprint == FingerprintOf(s0, SetOf(p.inputIds), p.fingerprint.scoped)
    requires Outdated(s1, p).None?
    ensures var ids := SetOf(p.inputIds);
            && CoveredNow(s1, p) == ids && Contents(s1.orders, ids) == Contents(s0.orders, ids)
            && Stamps(s1.orders, ids) == Stamps(s0.orders, ids)
            && ActiveMachines(s1) == ActiveMachines(s0)
            && forall m :: m in ActiveMachines(s0) ==> PrintOf(s1, m) == PrintOf(s0, m)
  {
    var ids := SetOf(p.inputIds);
    assert Existing(s1, p) == ids;
    StampsAgree(s0.orders, s1.orders, ids);
    MachinesSeen(s0, s1, p.fingerprint.machines);
  }

  lemma StampsAgree(a: Orders, b: Orders, ids: set<Id>)
    requires ids <= a.Keys && ids <= b.Keys
    requires forall i :: i in ids ==> Stamps(a, ids)[i] == b[i].updatedAt
    ensures Stamps(b, ids) == Stamps(a, ids)
  {
    assert forall i :: i in ids ==> a[i].updatedAt == b[i].updatedAt;
  }

  lemma MachinesSeen(s0: State, s1: State, prints: map<Id, MachinePrint>)
    requires ActiveMachines(s1) == ActiveMachines(s0) && prints == map m | m in ActiveMachines(s0) :: PrintOf(s0, m)
    requires forall m :: m in ActiveMachines(s1) && m in prints ==> prints[m] == PrintOf(s1, m)
    ensures forall m :: m in ActiveMachines(s0) ==> PrintOf(s1, m) == PrintOf(s0, m)
  {
  }
}
