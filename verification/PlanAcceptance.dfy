/** When plans are stale, accepted, edited and applied, in terms of the rows of the board. */
module PlanAcceptance {
  import opened Sequences
  import opened Records
  import opened ProductionRules
  import opened MachineStates
  import opened Planner
  import opened Tables
  import opened Queues
  import opened Board
  import opened ScheduleInputs
  import opened SchedulePlans
  import opened PlanApplication
  import opened PlanDrafts

  // ----- what is planned -----

  predicate IsPending(s: State, o: Id) { o in s.orders && s.orders[o].status == OrderPending && s.orders[o].taskId == None }

  predicate Older(a: Order, b: Order) { a.createdAt < b.createdAt || (a.createdAt == b.createdAt && a.id < b.id) }

  ghost predicate OldestFirst(orders: seq<Order>) { forall i, j :: 0 <= i < j < |orders| ==> Older(orders[i], orders[j]) }

  lemma {:induction false} InsertByAge(orders: seq<Order>, x: Order)
    requires OldestFirst(orders) && forall o :: o in orders ==> o.id != x.id
    ensures OldestFirst(InsertBy(CreatedBefore, orders, x))
    ensures forall o :: o in InsertBy(CreatedBefore, orders, x) <==> o in orders || o == x
  {
    if orders != [] && CreatedBefore(x, orders[|orders| - 1]) {
      var n := |orders| - 1;
      InsertByAge(orders[..n], x);
      var inserted := InsertBy(CreatedBefore, orders[..n], x);
      forall k | 0 <= k < |inserted|
        ensures Older(inserted[k], orders[n])
      {
        assert inserted[k] in inserted;
      }
    }
  }

  lemma {:induction false} SortByAge(orders: seq<Order>)
    requires DistinctIds(orders)
    ensures OldestFirst(SortBy(CreatedBefore, orders))
    ensures forall o :: o in SortBy(CreatedBefore, orders) <==> o in orders
  {
    if orders != [] {
      var n := |orders| - 1;
      SortByAge(orders[..n]);
      InsertByAge(SortBy(CreatedBefore, orders[..n]), orders[n]);
    }
  }

  lemma PendingRowsDistinct(s: State)
    requires RowsKeyed(s)
    ensures DistinctIds(Rows(s.orders, Ascending(Pending(s.orders))))
  {
    var ids := Ascending(Pending(s.orders));
    forall i, j | 0 <= i < j < |ids|
      ensures Rows(s.orders, ids)[i].id != Rows(s.orders, ids)[j].id
    {
      assert ids[i] in ids && ids[j] in ids;
    }
  }

  /** The planner gets exactly the pending orders, the oldest first. */
  lemma OrdersAreLoaded(s: State)
    requires RowsKeyed(s)
    ensures OldestFirst(LoadOrders(s))
    ensures forall o :: o in LoadOrders(s) <==> IsPending(s, o.id) && s.orders[o.id] == o
  {
    PendingRowsDistinct(s);
    SortByAge(Rows(s.orders, Ascending(Pending(s.orders))));
    LoadedOrders(s);
  }

  // ----- where a machine starts -----

  lemma {:induction false} LoadedWork(s: State, m: Id, lt: LoadedTask)
    requires m in s.machines
    ensures lt in ActiveTasks(LoadMachine(s, m)) <==> IsUnfinished(s, m, lt.task.id) && lt == LoadTask(s, lt.task.id)
    requires RowsKeyed(s)
  {
    var ids := Ascending(On(s.tasks, m));
    var all := LoadTasks(s, ids);
    FilterMembers((t: LoadedTask) => t.task.status != TaskDone, all);
    if lt in all {
      var k :| 0 <= k < |all| && all[k] == lt;
      assert ids[k] in ids;
    }
    if IsUnfinished(s, m, lt.task.id) && lt == LoadTask(s, lt.task.id) {
      assert lt.task.id in ids;
      var k :| 0 <= k < |ids| && ids[k] == lt.task.id;
      assert all[k] == lt;
    }
  }

  /** The task that ends the machine's queue. */
  ghost predicate EndsQueue(s: State, m: Id, t: Id) {
    && IsUnfinished(s, m, t)
    && forall u: Id :: IsUnfinished(s, m, u) && u != t ==>
         s.tasks[u].position < s.tasks[t].position || (s.tasks[u].position == s.tasks[t].position && u < t)
  }

  /** The order of the task that has the least id. */
  ghost predicate LeadsTask(s: State, t: Id, o: Id) { LinkedTo(s, o, t) && forall x: Id :: LinkedTo(s, x, t) ==> o <= x }

  /** A machine starts from the signature of the last task in its queue, as its first order has it. */
  lemma StartsFromLast(s: State, m: Id, t: Id, o: Id)
    requires RowsKeyed(s) && m in s.machines && EndsQueue(s, m, t) && LeadsTask(s, t, o)
    ensures InitialView(LoadMachine(s, m)).lastSignature == Some(SignatureOf(s.orders[o].content))
  {
    var tasks := ActiveTasks(LoadMachine(s, m));
    LoadedWork(s, m, LoadTask(s, t));
    var last := LastTask(tasks);
    LoadedWork(s, m, last);
    assert LoadTask(s, t) in tasks && last.task.id == t;
    FirstLinked(s, t, o);
  }

  lemma FirstLinked(s: State, t: Id, o: Id)
    requires LeadsTask(s, t, o)
    ensures var ids := Ascending(OrdersOfTask(s.orders, t)); ids != [] && ids[0] == o
  {
    assert o in OrdersOfTask(s.orders, t);
    AscendingStarts(OrdersOfTask(s.orders, t));
    assert LinkedTo(s, Least(OrdersOfTask(s.orders, t)), t);
  }

  lemma AscendingStarts(ids: set<Id>)
    requires ids != {}
    ensures |Ascending(ids)| > 0 && Ascending(ids)[0] == Least(ids)
  {
  }

  /** A machine without unfinished tasks starts from nothing. */
  lemma StartsFromNothing(s: State, m: Id)
    requires RowsKeyed(s) && m in s.machines && forall t: Id :: !IsUnfinished(s, m, t)
    ensures var v := InitialView(LoadMachine(s, m));
            v.lastSignature == None && v.lastWidth == None && v.taskCount == 0 && v.load == Some(0.0)
  {
    var tasks := ActiveTasks(LoadMachine(s, m));
    if tasks != [] {
      assert tasks[0] in tasks;
      LoadedWork(s, m, tasks[0]);
    }
    assert QueuedOrders(LoadMachine(s, m)) == [];
  }

  // ----- reasons -----

  predicate Makes(m: LoadedMachine, p: Profile) { p.order.content.categoryId in m.machine.categories }

  ghost predicate KnowsIt(m: LoadedMachine, p: Profile) {
    p.order.content.pattern != "" ==> KnowsPattern(m.machine, p.order.content.pattern)
  }

  /** Without a machine for the category, or for the category and pattern together, that is the reason given. */
  lemma NoMachineExactlyWhen(o: Order, machines: seq<LoadedMachine>)
    ensures var p := ProfileOf(o);
            var r := UnassignedReason(p, machines);
            && (r == NoMachineForCategory <==> p.width.Some? && forall m :: m in machines ==> !Makes(m, p))
            && (r == NoMachineForPattern <==>
                  p.width.Some? && (exists m :: m in machines && Makes(m, p)) && forall m :: m in machines && Makes(m, p) ==> !KnowsIt(m, p))
  {
    var p := ProfileOf(o);
    forall m | m in machines
      ensures (SupportsCategory(m.machine, p.signature) <==> Makes(m, p)) && (SupportsPattern(m.machine, p.signature) <==> KnowsIt(m, p))
    {
      ProfileDescribes(m.machine, o, (x: Order) => x.content.pattern != "" ==> KnowsPattern(m.machine, x.content.pattern));
    }
    assert forall m :: m in machines ==> (Fits(m.machine, p.signature) <==> Makes(m, p) && KnowsIt(m, p));
  }

  // ----- what a snapshot sees -----

  predicate IsUnfinished(s: State, m: Id, t: Id) { t in s.tasks && s.tasks[t].machineId == m && s.tasks[t].status != TaskDone }

  /** The unfinished task is the same in both states, with the same orders, none of which has changed. */
  ghost predicate SameTask(a: State, b: State, t: Id)
    requires t in a.tasks && t in b.tasks
  {
    && a.tasks[t].position == b.tasks[t].position && a.tasks[t].status == b.tasks[t].status && a.tasks[t].updatedAt == b.tasks[t].updatedAt
    && forall o: Id :: LinkedTo(a, o, t) || LinkedTo(b, o, t) ==>
         LinkedTo(a, o, t) && LinkedTo(b, o, t) && a.orders[o].updatedAt == b.orders[o].updatedAt
  }

  predicate LinkedTo(s: State, o: Id, t: Id) { o in s.orders && s.orders[o].taskId == Some(t) }

  /** The machine can do the same, and has the same work before it. */
  ghost predicate SameMachine(a: State, b: State, m: Id)
    requires m in a.machines && m in b.machines
  {
    && a.machines[m].active == b.machines[m].active
    && a.machines[m].minWidth == b.machines[m].minWidth && a.machines[m].maxWidth == b.machines[m].maxWidth
    && a.machines[m].categories == b.machines[m].categories && a.machines[m].patterns.Keys == b.machines[m].patterns.Keys
    && SameWork(a, b, m)
  }

  ghost predicate SameWork(a: State, b: State, m: Id) {
    forall t: Id :: IsUnfinished(a, m, t) || IsUnfinished(b, m, t) ==> IsUnfinished(a, m, t) && IsUnfinished(b, m, t) && SameTask(a, b, t)
  }

  lemma EntriesAgree(a: State, b: State, t: Id)
    requires t in a.tasks && t in b.tasks
    ensures QueueEntryOf(a, t) == QueueEntryOf(b, t) <==> SameTask(a, b, t)
  {
    var x, y := Stamps(a.orders, OrdersOfTask(a.orders, t)), Stamps(b.orders, OrdersOfTask(b.orders, t));
    assert forall o: Id :: (o in x <==> LinkedTo(a, o, t)) && (o in y <==> LinkedTo(b, o, t));
    assert x == y <==> forall o: Id :: (LinkedTo(a, o, t) || LinkedTo(b, o, t) ==>
      LinkedTo(a, o, t) && LinkedTo(b, o, t) && a.orders[o].updatedAt == b.orders[o].updatedAt) by {
      if x == y {
        forall o: Id | LinkedTo(a, o, t) || LinkedTo(b, o, t)
          ensures LinkedTo(a, o, t) && LinkedTo(b, o, t) && a.orders[o].updatedAt == b.orders[o].updatedAt
        {
          assert o in x && o in y && x[o] == y[o];
        }
      }
    }
  }

  lemma SameWorkSameQueue(a: State, b: State, m: Id)
    requires SameWork(a, b, m)
    ensures Queue(a.tasks, m) == Queue(b.tasks, m)
  {
    var p, q := Queue(a.tasks, m), Queue(b.tasks, m);
    forall t: Id
      ensures t in p <==> t in q
      ensures t in p ==> t in a.tasks && t in b.tasks && a.tasks[t].position == b.tasks[t].position
    {
      assert t in p <==> IsUnfinished(a, m, t);
      assert t in q <==> IsUnfinished(b, m, t);
    }
    InOrderElsewhere(a.tasks, b.tasks, p);
    OneOrder(b.tasks, p, q);
  }

  lemma InOrderElsewhere(a: Tasks, b: Tasks, p: seq<Id>)
    requires InOrder(a, p) && forall t :: t in p ==> t in a && t in b && a[t].position == b[t].position
    ensures InOrder(b, p)
  {
    forall i, j | 0 <= i < j < |p|
      ensures p[i] in b && p[j] in b && Earlier(b, p[i], p[j])
    {
      assert p[i] in p && p[j] in p && Earlier(a, p[i], p[j]);
    }
    forall i | 0 <= i < |p|
      ensures p[i] in b
    {
      assert p[i] in p;
    }
  }

  /** The fingerprint of a machine is the same exactly when the machine is. */
  lemma PrintsAgreeExactlyWhen(a: State, b: State, m: Id)
    requires m in a.machines && m in b.machines
    ensures PrintOf(a, m) == PrintOf(b, m) <==> SameMachine(a, b, m)
  {
    var p, q := Queue(a.tasks, m), Queue(b.tasks, m);
    var x, y := PrintOf(a, m).queue, PrintOf(b, m).queue;
    assert |x| == |p| && |y| == |q|;
    if x == y {
      EqualEntries(a, b, m);
    }
    if SameWork(a, b, m) {
      SameWorkSameQueue(a, b, m);
      forall k | 0 <= k < |p|
        ensures x[k] == y[k]
      {
        assert p[k] in p && IsUnfinished(a, m, p[k]);
        EntriesAgree(a, b, p[k]);
      }
    }
  }

  lemma EqualEntries(a: State, b: State, m: Id)
    requires m in a.machines && m in b.machines && PrintOf(a, m).queue == PrintOf(b, m).queue
    ensures SameWork(a, b, m)
  {
    var p, q := Queue(a.tasks, m), Queue(b.tasks, m);
    var x, y := PrintOf(a, m).queue, PrintOf(b, m).queue;
    assert |x| == |p| && |y| == |q|;
    forall k | 0 <= k < |p|
      ensures p[k] == q[k] && p[k] in a.tasks && p[k] in b.tasks && SameTask(a, b, p[k])
    {
      assert p[k] in p && q[k] in q;
      assert x[k] == QueueEntryOf(a, p[k]) && y[k] == QueueEntryOf(b, q[k]);
      EntriesAgree(a, b, p[k]);
    }
    forall t: Id | IsUnfinished(a, m, t) || IsUnfinished(b, m, t)
      ensures IsUnfinished(a, m, t) && IsUnfinished(b, m, t) && SameTask(a, b, t)
    {
      if IsUnfinished(a, m, t) {
        assert t in p;
        var k :| 0 <= k < |p| && p[k] == t;
        assert q[k] in q;
      } else {
        assert t in q;
        var k :| 0 <= k < |q| && q[k] == t;
        assert p[k] in p;
      }
    }
  }

  // ----- when a draft is stale -----

  /** The board is as the plan's snapshot of s0 has it: the same orders to plan, unchanged, and the same active machines. */
  ghost predicate AsSeen(s0: State, s: State, p: Plan) {
    && (forall o :: o in p.inputIds ==> IsPending(s, o))
    && (!p.fingerprint.scoped ==> forall o: Id :: IsPending(s, o) ==> o in p.inputIds)
    && (forall o :: o in p.inputIds && o in s.orders && o in s0.orders ==>
          s.orders[o].content == s0.orders[o].content && s.orders[o].updatedAt == s0.orders[o].updatedAt)
    && (forall m: Id :: m in s.machines && s.machines[m].active <==> m in s0.machines && s0.machines[m].active)
    && (forall m: Id :: m in s.machines && m in s0.machines && s.machines[m].active && s0.machines[m].active ==> SameMachine(s0, s, m))
  }

  /** The plan's snapshot was taken of s0 and of its input orders. */
  ghost predicate TakenOf(s0: State, p: Plan) {
    SetOf(p.inputIds) <= s0.orders.Keys && p.fingerprint == FingerprintOf(s0, SetOf(p.inputIds), p.fingerprint.scoped)
  }

  lemma CreatedIsTaken(s0: State, selection: Option<seq<Id>>)
    requires RowsKeyed(s0) && CreatePlan(s0, selection).Ok?
    ensures TakenOf(s0, CreatePlan(s0, selection).value)
  {
    InputsDistinct(s0, selection);
    IdsOfRows(s0, InputOrders(s0, selection).value);
  }

  lemma CoveredIs(s: State, p: Plan)
    ensures forall o: Id :: o in CoveredNow(s, p) <==> IsPending(s, o) && (p.fingerprint.scoped ==> o in p.inputIds)
  {
  }

  lemma MapsAgree<V>(a: map<Id, V>, b: map<Id, V>)
    ensures a == b <==> (forall k :: k in a <==> k in b) && forall k :: k in a && k in b ==> a[k] == b[k]
  {
    if (forall k :: k in a <==> k in b) && forall k :: k in a && k in b ==> a[k] == b[k] {
      assert a.Keys == b.Keys;
    }
  }

  lemma OrdersSeen(s0: State, s: State, ids: set<Id>)
    requires ids <= s0.orders.Keys && ids <= s.orders.Keys
    ensures Stamps(s.orders, ids) == Stamps(s0.orders, ids) && Contents(s.orders, ids) == Contents(s0.orders, ids)
            <==> forall o :: o in ids ==> s.orders[o].content == s0.orders[o].content && s.orders[o].updatedAt == s0.orders[o].updatedAt
  {
    MapsAgree(Stamps(s.orders, ids), Stamps(s0.orders, ids));
    MapsAgree(Contents(s.orders, ids), Contents(s0.orders, ids));
    if Stamps(s.orders, ids) == Stamps(s0.orders, ids) && Contents(s.orders, ids) == Contents(s0.orders, ids) {
      forall o | o in ids
        ensures s.orders[o].content == s0.orders[o].content && s.orders[o].updatedAt == s0.orders[o].updatedAt
      {
        assert Stamps(s.orders, ids)[o] == Stamps(s0.orders, ids)[o] && Contents(s.orders, ids)[o] == Contents(s0.orders, ids)[o];
      }
    }
  }

  function Prints(s: State): map<Id, MachinePrint> { map m | m in ActiveMachines(s) :: PrintOf(s, m) }

  lemma MachinesAgree(s0: State, s: State)
    requires ActiveMachines(s) == ActiveMachines(s0)
    ensures Prints(s) == Prints(s0) <==> forall m: Id :: m in ActiveMachines(s0) ==> m in s.machines && m in s0.machines && SameMachine(s0, s, m)
  {
    MapsAgree(Prints(s), Prints(s0));
    forall m: Id | m in ActiveMachines(s0)
      ensures Prints(s)[m] == Prints(s0)[m] <==> SameMachine(s0, s, m)
    {
      PrintsAgreeExactlyWhen(s0, s, m);
    }
    if Prints(s) == Prints(s0) {
      forall m: Id | m in ActiveMachines(s0)
        ensures SameMachine(s0, s, m)
      {
        assert Prints(s)[m] == Prints(s0)[m];
      }
    }
  }

  lemma CoverExactlyWhen(s: State, p: Plan)
    ensures CoveredNow(s, p) == SetOf(p.inputIds)
            <==> (forall o :: o in p.inputIds ==> IsPending(s, o)) && (!p.fingerprint.scoped ==> forall o: Id :: IsPending(s, o) ==> o in p.inputIds)
  {
    CoveredIs(s, p);
    var ids := SetOf(p.inputIds);
    if CoveredNow(s, p) == ids {
      forall o | o in p.inputIds
        ensures IsPending(s, o)
      {
        assert o in ids;
      }
      forall o: Id | IsPending(s, o) && !p.fingerprint.scoped
        ensures o in p.inputIds
      {
        assert o in CoveredNow(s, p);
      }
    }
    if (forall o :: o in p.inputIds ==> IsPending(s, o)) && (!p.fingerprint.scoped ==> forall o: Id :: IsPending(s, o) ==> o in p.inputIds) {
      assert forall o: Id :: o in CoveredNow(s, p) <==> o in ids;
    }
  }

  lemma ActiveAgree(s0: State, s: State)
    ensures ActiveMachines(s) == ActiveMachines(s0)
            <==> forall m: Id :: m in s.machines && s.machines[m].active <==> m in s0.machines && s0.machines[m].active
  {
    assert forall m: Id :: m in ActiveMachines(s) <==> m in s.machines && s.machines[m].active;
    assert forall m: Id :: m in ActiveMachines(s0) <==> m in s0.machines && s0.machines[m].active;
    if ActiveMachines(s) == ActiveMachines(s0) {
      forall m: Id
        ensures m in s.machines && s.machines[m].active <==> m in s0.machines && s0.machines[m].active
      {
        assert m in ActiveMachines(s) <==> m in ActiveMachines(s0);
      }
    }
  }

  /** The parts of a snapshot that say what the board was like. */
  ghost predicate PartsAgree(s0: State, s: State, p: Plan) {
    var ids := SetOf(p.inputIds);
    && CoveredNow(s, p) == ids && Stamps(s.orders, ids) == Stamps(s0.orders, ids) && Contents(s.orders, ids) == Contents(s0.orders, ids)
    && ActiveMachines(s) == ActiveMachines(s0) && Prints(s) == Prints(s0)
  }

  lemma PartsAgreeExactlyWhen(s0: State, s: State, p: Plan)
    requires SetOf(p.inputIds) <= s0.orders.Keys
    ensures PartsAgree(s0, s, p) <==> AsSeen(s0, s, p)
  {
    var ids := SetOf(p.inputIds);
    CoverExactlyWhen(s, p);
    ActiveAgree(s0, s);
    if CoveredNow(s, p) == ids {
      OrdersSeen(s0, s, ids);
    }
    if ActiveMachines(s) == ActiveMachines(s0) {
      MachinesAgree(s0, s);
    }
  }

  /** Whether weights decide between machines is part of the snapshot as well. */
  predicate SameMeasure(s: State, p: Plan) {
    p.fingerprint.byCount == ByTaskCount(Rows(s.orders, Ascending(CoveredNow(s, p))), LoadMachines(s))
  }

  /** A draft is current exactly while the board is as its snapshot has it. */
  lemma CurrentExactlyWhen(s0: State, s: State, p: Plan)
    requires TakenOf(s0, p)
    ensures !IsStale(s, p) <==> AsSeen(s0, s, p) && SameMeasure(s, p)
  {
    PartsAgreeExactlyWhen(s0, s, p);
    assert FingerprintOf(s, CoveredNow(s, p), p.fingerprint.scoped).machines == Prints(s);
    assert p.fingerprint.machines == Prints(s0);
    StampsTell(s0, s, p);
  }

  /** The snapshots' stamps can only agree when they cover the same orders. */
  lemma StampsTell(s0: State, s: State, p: Plan)
    requires SetOf(p.inputIds) <= s0.orders.Keys
    ensures Stamps(s.orders, CoveredNow(s, p)) == Stamps(s0.orders, SetOf(p.inputIds)) ==> CoveredNow(s, p) == SetOf(p.inputIds)
  {
    var x, y := Stamps(s.orders, CoveredNow(s, p)), Stamps(s0.orders, SetOf(p.inputIds));
    assert x.Keys == CoveredNow(s, p) && y.Keys == SetOf(p.inputIds);
  }

  // ----- when a plan applies -----

  lemma LastComplaint(s: State, p: Plan, entries: seq<Entry>)
    requires (forall e :: e in entries ==> e.machineId in s.machines) && entries != []
    ensures forall e :: e in entries[..|entries| - 1] ==> e.machineId in s.machines
    ensures entries[|entries| - 1].machineId in s.machines
    ensures FirstEntryError(s, p, entries).None?
            <==> FirstEntryError(s, p, entries[..|entries| - 1]).None? && EntryError(s, p, entries[|entries| - 1]).None?
  {
    assert entries[|entries| - 1] in entries;
  }

  /** The task can still be made of the plan's orders. */
  ghost predicate EntryFits(s: State, p: Plan, e: Entry) {
    && e.machineId in s.machines && e.orderIds != [] && (forall i :: i in e.orderIds ==> i in p.inputIds && i in s.orders)
    && MayCombine(s.machines[e.machineId], Rows(s.orders, e.orderIds))
  }

  lemma {:induction false} EntryFitsExactlyWhen(s: State, p: Plan, e: Entry)
    requires e.machineId in s.machines
    ensures EntryError(s, p, e).None? <==> EntryFits(s, p, e)
  {
    if forall i :: i in e.orderIds ==> i in p.inputIds && i in s.orders {
      AllowedExactlyWhen(s.machines[e.machineId], Rows(s.orders, e.orderIds));
    }
  }

  lemma OutdatedExactlyWhen(s0: State, s: State, p: Plan)
    requires TakenOf(s0, p) && forall e :: e in p.tasks ==> e.machineId in s.machines
    ensures Outdated(s, p).None? <==> AsSeen(s0, s, p)
  {
    PartsAgreeExactlyWhen(s0, s, p);
    if Outdated(s, p).None? {
      SnapshotSeen(s0, s, p);
      assert Prints(s) == Prints(s0);
    }
    if PartsAgree(s0, s, p) {
      SeenIsCurrent(s0, s, p);
    }
  }

  lemma SeenIsCurrent(s0: State, s: State, p: Plan)
    requires TakenOf(s0, p) && (forall e :: e in p.tasks ==> e.machineId in s.machines) && PartsAgree(s0, s, p)
    ensures Outdated(s, p).None?
  {
    var ids := SetOf(p.inputIds);
    CoverExactlyWhen(s, p);
    assert Existing(s, p) == ids;
    assert p.fingerprint.machines == Prints(s);
    assert forall m :: m in ActiveMachines(s) ==> Prints(s)[m] == PrintOf(s, m);
    assert forall i :: i in ids ==> Stamps(s.orders, ids)[i] == s.orders[i].updatedAt;
  }

  lemma {:induction false} AllIdsHold(s: State, p: Plan, entries: seq<Entry>)
    requires AllFit(s, p, entries)
    ensures forall i :: i in AllIds(entries) ==> i in p.inputIds
  {
    if entries != [] {
      LastFits(s, p, entries);
      AllIdsHold(s, p, entries[..|entries| - 1]);
    }
  }

  lemma ChecksOfApplying(s: State, p: Plan)
    requires forall e :: e in p.tasks ==> e.machineId in s.machines
    ensures ApplyError(s, p).None?
            <==> p.status == PlanDraft && p.fingerprint.rules == Some(3) && p.tasks != [] && Outdated(s, p).None?
                 && FirstEntryError(s, p, p.tasks).None? && NoDuplicates(AllIds(p.tasks))
                 && forall i :: i in AllIds(p.tasks) ==> IsPending(s, i)
  {
  }

  ghost predicate AllFit(s: State, p: Plan, entries: seq<Entry>) { forall k :: 0 <= k < |entries| ==> EntryFits(s, p, entries[k]) }

  lemma {:induction false} AllFitExactlyWhen(s: State, p: Plan, entries: seq<Entry>)
    requires forall e :: e in entries ==> e.machineId in s.machines
    ensures FirstEntryError(s, p, entries).None? <==> AllFit(s, p, entries)
  {
    if entries != [] {
      var n := |entries| - 1;
      LastComplaint(s, p, entries);
      AllFitExactlyWhen(s, p, entries[..n]);
      EntryFitsExactlyWhen(s, p, entries[n]);
      LastFits(s, p, entries);
    }
  }

  lemma {:induction false} LastFits(s: State, p: Plan, entries: seq<Entry>)
    requires entries != []
    ensures AllFit(s, p, entries) <==> AllFit(s, p, entries[..|entries| - 1]) && EntryFits(s, p, entries[|entries| - 1])
  {
    var n := |entries| - 1;
    if AllFit(s, p, entries) {
      forall k | 0 <= k < n
        ensures EntryFits(s, p, entries[..n][k])
      {
        assert EntryFits(s, p, entries[k]);
      }
    }
    if AllFit(s, p, entries[..n]) && EntryFits(s, p, entries[n]) {
      forall k | 0 <= k < |entries|
        ensures EntryFits(s, p, entries[k])
      {
        if k < n {
          assert EntryFits(s, p, entries[..n][k]);
        }
      }
    }
  }

  lemma MachineMissingIsOutdated(s: State, p: Plan, e: Entry)
    requires e in p.tasks && e.machineId !in s.machines
    ensures ApplyError(s, p).Some? && !AllFit(s, p, p.tasks)
  {
    var k :| 0 <= k < |p.tasks| && p.tasks[k] == e;
    assert !EntryFits(s, p, p.tasks[k]);
  }

  /** A plan applies exactly as a draft with tasks, on the board as it saw it, as long as each of its tasks can still be made. */
  lemma AppliesExactlyWhen(s0: State, s: State, p: Plan)
    requires TakenOf(s0, p)
    ensures ApplyError(s, p).None?
            <==> p.status == PlanDraft && p.tasks != [] && AsSeen(s0, s, p) && AllFit(s, p, p.tasks) && NoDuplicates(AllIds(p.tasks))
  {
    if e :| e in p.tasks && e.machineId !in s.machines {
      MachineMissingIsOutdated(s, p, e);
    } else {
      ChecksOfApplying(s, p);
      OutdatedExactlyWhen(s0, s, p);
      AllFitExactlyWhen(s, p, p.tasks);
      if AllFit(s, p, p.tasks) {
        AllIdsHold(s, p, p.tasks);
      }
    }
  }

  /** A plan made under other rules never applies. */
  lemma OtherRulesNeverApply(s: State, p: Plan)
    requires p.fingerprint.rules != Some(3)
    ensures ApplyError(s, p).Some?
  {
  }

  // ----- editing by hand -----

  /** The kth task drawn by hand: an active machine, orders of the plan still pending, in no task before, that may run together. */
  ghost predicate EditFits(s: State, p: Plan, edits: seq<Edit>, k: nat)
    requires k < |edits|
  {
    var e := edits[k];
    && e.machineId in s.machines && s.machines[e.machineId].active
    && NoDuplicates(e.orderIds) && (forall i :: i in e.orderIds ==> i in p.inputIds && IsPending(s, i) && !InEarlier(edits, k, i))
    && MayCombine(s.machines[e.machineId], Rows(s.orders, e.orderIds))
  }

  predicate InEarlier(edits: seq<Edit>, k: nat, i: Id)
    requires k <= |edits|
  {
    exists j :: 0 <= j < k && i in edits[j].orderIds
  }

  function MetresOf(o: Order): real { if o.content.unit == Metre then o.content.quantity else 0.0 }

  /** The task that the kth drawing becomes: its width in millimetres, its weight, and its length in metres. */
  ghost predicate DrawnAs(s: State, edits: seq<Edit>, k: nat, entry: Entry)
    requires k < |edits|
  {
    && entry.machineId == edits[k].machineId && entry.orderIds == edits[k].orderIds
    && (forall i :: i in entry.orderIds ==> i in s.orders)
    && entry.totalWidth == SumBy(Millimetres, Rows(s.orders, entry.orderIds))
    && entry.totalKg == BatchKg(Rows(s.orders, entry.orderIds))
    && entry.totalMetres == SumBy(MetresOf, Rows(s.orders, entry.orderIds))
  }

  lemma {:induction false} SumsAgree(f: Order -> real, g: Order -> real, orders: seq<Order>)
    requires forall o :: o in orders ==> f(o) == g(o)
    ensures SumBy(f, orders) == SumBy(g, orders)
  {
    if orders != [] {
      SumsAgree(f, g, orders[..|orders| - 1]);
    }
  }

  lemma {:induction false} OneEditExactlyWhen(s: State, p: Plan, edits: seq<Edit>, k: nat, taken: set<Id>)
    requires k < |edits| && forall i: Id :: i in taken <==> InEarlier(edits, k, i)
    ensures CheckedEntry(s, p, taken, edits[k]).Ok? <==> EditFits(s, p, edits, k)
    ensures CheckedEntry(s, p, taken, edits[k]).Ok? ==> DrawnAs(s, edits, k, CheckedEntry(s, p, taken, edits[k]).value)
  {
    var e := edits[k];
    OneEditChecks(s, p, taken, e);
    if OneEditNamed(s, p, taken, e) {
      AllowedExactlyWhen(s.machines[e.machineId], Rows(s.orders, e.orderIds));
      OneEditDrawn(s, p, taken, edits, k);
    }
  }

  /** The machine is active, and the orders may be taken, each once. */
  predicate OneEditNamed(s: State, p: Plan, taken: set<Id>, e: Edit) {
    && e.machineId in s.machines && s.machines[e.machineId].active
    && NoDuplicates(e.orderIds) && forall i :: i in e.orderIds ==> i in p.inputIds && IsPending(s, i) && i !in taken
  }

  lemma {:induction false} OneEditChecks(s: State, p: Plan, taken: set<Id>, e: Edit)
    ensures CheckedEntry(s, p, taken, e).Ok?
            <==> OneEditNamed(s, p, taken, e) && ValidateBatch(s.machines[e.machineId], Rows(s.orders, e.orderIds)).Ok?
  {
    if OneEditNamed(s, p, taken, e) {
      NamedIsChecked(s, p, taken, e);
    } else {
      UnnamedIsRefused(s, p, taken, e);
    }
  }

  lemma {:induction false} NamedIsChecked(s: State, p: Plan, taken: set<Id>, e: Edit)
    requires OneEditNamed(s, p, taken, e)
    ensures EditError(s, p, taken, e).None? <==> ValidateBatch(s.machines[e.machineId], Rows(s.orders, e.orderIds)).Ok?
  {
  }

  lemma {:induction false} UnnamedIsRefused(s: State, p: Plan, taken: set<Id>, e: Edit)
    requires !OneEditNamed(s, p, taken, e)
    ensures EditError(s, p, taken, e).Some?
  {
  }

  lemma {:induction false} OneEditDrawn(s: State, p: Plan, taken: set<Id>, edits: seq<Edit>, k: nat)
    requires k < |edits| && OneEditNamed(s, p, taken, edits[k])
    ensures CheckedEntry(s, p, taken, edits[k]).Ok? ==> DrawnAs(s, edits, k, CheckedEntry(s, p, taken, edits[k]).value)
  {
    var rows := Rows(s.orders, edits[k].orderIds);
    BatchIsAsWide(s.machines[edits[k].machineId], rows);
    SumsAgree(MetreQuantity, MetresOf, rows);
  }

  lemma {:induction false} BatchIsAsWide(m: Machine, orders: seq<Order>)
    ensures ValidateBatch(m, orders).Ok? ==> ValidateBatch(m, orders).value == SumBy(Millimetres, orders)
  {
    AllowedExactlyWhen(m, orders);
  }

  /** What the drawings before k have taken. */
  ghost predicate Drawn(s: State, edits: seq<Edit>, entries: seq<Entry>) {
    |entries| == |edits| && forall k: nat :: k < |edits| ==> DrawnAs(s, edits, k, entries[k])
  }

  lemma {:induction false} TakenSoFar(s: State, edits: seq<Edit>, entries: seq<Entry>)
    requires Drawn(s, edits, entries)
    ensures forall i: Id :: i in AllIds(entries) <==> InEarlier(edits, |edits|, i)
  {
    if edits != [] {
      var n := |edits| - 1;
      FewerDrawn(s, edits, entries);
      TakenSoFar(s, edits[..n], entries[..n]);
      assert DrawnAs(s, edits, n, entries[n]);
      forall i: Id
        ensures i in AllIds(entries) <==> InEarlier(edits, |edits|, i)
      {
        EarlierAndLast(edits, i);
      }
    }
  }

  lemma EarlierAndLast(edits: seq<Edit>, i: Id)
    requires edits != []
    ensures var n := |edits| - 1;
            && (InEarlier(edits, n + 1, i) <==> InEarlier(edits, n, i) || i in edits[n].orderIds)
            && (InEarlier(edits, n, i) <==> InEarlier(edits[..n], n, i))
  {
    var n := |edits| - 1;
    if InEarlier(edits, n, i) {
      var j :| 0 <= j < n && i in edits[j].orderIds;
      assert i in edits[..n][j].orderIds;
    }
  }

  lemma FewerDrawn(s: State, edits: seq<Edit>, entries: seq<Entry>)
    requires Drawn(s, edits, entries) && edits != []
    ensures Drawn(s, edits[..|edits| - 1], entries[..|edits| - 1])
  {
    var before, done := edits[..|edits| - 1], entries[..|edits| - 1];
    forall k: nat | k < |before|
      ensures DrawnAs(s, before, k, done[k])
    {
      assert DrawnAs(s, edits, k, entries[k]);
    }
  }

  ghost predicate EditsFit(s: State, p: Plan, edits: seq<Edit>) { forall k: nat :: k < |edits| ==> EditFits(s, p, edits, k) }

  lemma {:induction false} FewerFit(s: State, p: Plan, edits: seq<Edit>)
    requires edits != []
    ensures EditsFit(s, p, edits) <==> EditsFit(s, p, edits[..|edits| - 1]) && EditFits(s, p, edits, |edits| - 1)
  {
    var n := |edits| - 1;
    forall k: nat | k < n
      ensures EditFits(s, p, edits[..n], k) <==> EditFits(s, p, edits, k)
    {
      forall i: Id
        ensures InEarlier(edits[..n], k, i) <==> InEarlier(edits, k, i)
      {
        if InEarlier(edits, k, i) {
          var j :| 0 <= j < k && i in edits[j].orderIds;
          assert i in edits[..n][j].orderIds;
        }
      }
    }
    if EditsFit(s, p, edits) {
      assert EditFits(s, p, edits, n);
      forall k: nat | k < n
        ensures EditFits(s, p, edits[..n], k)
      {
        assert EditFits(s, p, edits, k);
      }
    }
    if EditsFit(s, p, edits[..n]) && EditFits(s, p, edits, n) {
      forall k: nat | k < |edits|
        ensures EditFits(s, p, edits, k)
      {
        if k < n {
          assert EditFits(s, p, edits[..n], k);
        }
      }
    }
  }

  lemma {:induction false} EditsExactlyWhen(s: State, p: Plan, edits: seq<Edit>)
    ensures EditedEntries(s, p, edits).Ok? <==> EditsFit(s, p, edits)
    ensures EditedEntries(s, p, edits).Ok? ==> Drawn(s, edits, EditedEntries(s, p, edits).value)
  {
    if edits != [] {
      var n := |edits| - 1;
      EditsExactlyWhen(s, p, edits[..n]);
      FewerFit(s, p, edits);
      if EditedEntries(s, p, edits[..n]).Ok? {
        var done := EditedEntries(s, p, edits[..n]).value;
        TakenSoFar(s, edits[..n], done);
        forall i: Id
          ensures i in SetOf(AllIds(done)) <==> InEarlier(edits, n, i)
        {
          EarlierAndLast(edits, i);
        }
        OneEditExactlyWhen(s, p, edits, n, SetOf(AllIds(done)));
        if EditedEntries(s, p, edits).Ok? {
          MoreDrawn(s, edits, done, EditedEntries(s, p, edits).value[n]);
        }
      }
    }
  }

  lemma MoreDrawn(s: State, edits: seq<Edit>, done: seq<Entry>, entry: Entry)
    requires edits != [] && Drawn(s, edits[..|edits| - 1], done) && DrawnAs(s, edits, |edits| - 1, entry)
    ensures Drawn(s, edits, done + [entry])
  {
    forall k: nat | k < |edits|
      ensures DrawnAs(s, edits, k, (done + [entry])[k])
    {
      if k < |edits| - 1 {
        assert DrawnAs(s, edits[..|edits| - 1], k, done[k]);
      }
    }
  }

  lemma {:induction false} LeftAreNotArranged(inputIds: seq<Id>, taken: set<Id>)
    ensures forall u :: u in LeftByHand(inputIds, taken) ==> u.why == NotArranged
  {
    if inputIds != [] {
      LeftAreNotArranged(inputIds[..|inputIds| - 1], taken);
    }
  }

  /** A current draft is redrawn exactly when each drawing fits; it then has those tasks, and the other orders are left, in order. */
  lemma RedrawnExactlyWhen(s: State, p: Plan, revision: Revision, edits: seq<Edit>)
    ensures UpdateDraft(s, p, revision, edits).Ok?
            <==> p.status == PlanDraft && revision == Revision(p.tasks, p.unassigned) && !IsStale(s, p) && EditsFit(s, p, edits)
    ensures UpdateDraft(s, p, revision, edits).Ok? ==>
              var p' := UpdateDraft(s, p, revision, edits).value;
              && Drawn(s, edits, p'.tasks) && p' == p.(tasks := p'.tasks, unassigned := p'.unassigned)
              && LeftIds(p'.unassigned) == Filter((i: Id) => !InEarlier(edits, |edits|, i), p.inputIds)
              && forall u :: u in p'.unassigned ==> u.why == NotArranged
  {
    EditsExactlyWhen(s, p, edits);
    if UpdateDraft(s, p, revision, edits).Ok? {
      var entries := EditedEntries(s, p, edits).value;
      var taken := SetOf(AllIds(entries));
      TakenSoFar(s, edits, entries);
      LeftByHandIds(p.inputIds, taken);
      LeftAreNotArranged(p.inputIds, taken);
      FiltersAgree((i: Id) => i !in taken, (i: Id) => !InEarlier(edits, |edits|, i), p.inputIds);
    }
  }

  lemma {:induction false} FiltersAgree(f: Id -> bool, g: Id -> bool, ids: seq<Id>)
    requires forall i :: i in ids ==> f(i) == g(i)
    ensures Filter(f, ids) == Filter(g, ids)
  {
    if ids != [] {
      FiltersAgree(f, g, ids[..|ids| - 1]);
    }
  }
}
