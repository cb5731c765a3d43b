/** What scheduling reads of the board, and the fingerprint by which a draft notices changes (scheduling/inputs.py). */
module ScheduleInputs {
  import opened Sequences
  import opened Records
  import opened ProductionRules
  import opened MachineStates
  import opened Planner
  import opened Tables
  import opened Queues
  import opened Board

  const RULE_VERSION := 3

  function Pending(orders: Orders): set<Id> { set o | o in orders && Unlinked(orders[o]) }

  predicate CreatedBefore(a: Order, b: Order) {
    a.createdAt < b.createdAt || (a.createdAt == b.createdAt && a.id < b.id)
  }

  /** The pending orders, oldest first. */
  function LoadOrders(s: State): seq<Order> {
    SortBy(CreatedBefore, Rows(s.orders, Ascending(Pending(s.orders))))
  }

  function ActiveMachines(s: State): set<Id> { set m | m in s.machines && s.machines[m].active }

  function LoadTask(s: State, t: Id): LoadedTask
    requires t in s.tasks
  {
    LoadedTask(s.tasks[t], Rows(s.orders, Ascending(OrdersOfTask(s.orders, t))))
  }

  function LoadTasks(s: State, ids: seq<Id>): (r: seq<LoadedTask>)
    requires forall t :: t in ids ==> t in s.tasks
    ensures |r| == |ids| && forall k :: 0 <= k < |r| ==> r[k] == LoadTask(s, ids[k])
  {
    seq(|ids|, k requires 0 <= k < |ids| => LoadTask(s, ids[k]))
  }

  function LoadMachine(s: State, m: Id): LoadedMachine
    requires m in s.machines
  {
    LoadedMachine(s.machines[m], LoadTasks(s, Ascending(On(s.tasks, m))))
  }

  function LoadListed(s: State, ids: seq<Id>): (r: seq<LoadedMachine>)
    requires forall m :: m in ids ==> m in s.machines
    ensures |r| == |ids| && forall k :: 0 <= k < |r| ==> r[k] == LoadMachine(s, ids[k])
  {
    seq(|ids|, k requires 0 <= k < |ids| => LoadMachine(s, ids[k]))
  }

  predicate NamedBefore(a: LoadedMachine, b: LoadedMachine) {
    LexLess(a.machine.name, b.machine.name) || (a.machine.name == b.machine.name && a.machine.id < b.machine.id)
  }

  /** The active machines with their tasks, by name. */
  function LoadMachines(s: State): seq<LoadedMachine> {
    SortBy(NamedBefore, LoadListed(s, Ascending(ActiveMachines(s))))
  }

  /** Exactly the pending orders, each once. */
  lemma LoadedOrders(s: State)
    requires RowsKeyed(s)
    ensures DistinctIds(LoadOrders(s))
    ensures forall o :: o in LoadOrders(s) <==> o.id in Pending(s.orders) && s.orders[o.id] == o
  {
    var ids := Ascending(Pending(s.orders));
    var rows := Rows(s.orders, ids);
    forall o: Order
      ensures o in rows <==> o.id in Pending(s.orders) && s.orders[o.id] == o
    {
      if o in rows {
        var k :| 0 <= k < |rows| && rows[k] == o;
        assert ids[k] in ids;
      }
      if o.id in Pending(s.orders) && s.orders[o.id] == o {
        assert o.id in ids;
        var k :| 0 <= k < |ids| && ids[k] == o.id;
        assert rows[k] == o;
      }
    }
    forall i, j | 0 <= i < j < |rows|
      ensures rows[i].id != rows[j].id
    {
      assert ids[i] in ids && ids[j] in ids;
    }
    SortIsPermutation(CreatedBefore, rows);
    PermutationDistinct((o: Order) => o.id, rows, LoadOrders(s));
  }

  /** Exactly the active machines, each once. */
  lemma LoadedMachines(s: State)
    requires RowsKeyed(s)
    ensures DistinctMachines(LoadMachines(s))
    ensures forall m :: m in LoadMachines(s) <==> m.machine.id in ActiveMachines(s) && m == LoadMachine(s, m.machine.id)
  {
    var listed := LoadListed(s, Ascending(ActiveMachines(s)));
    ListedMachines(s);
    SortIsPermutation(NamedBefore, listed);
    PermutationDistinct((m: LoadedMachine) => m.machine.id, listed, LoadMachines(s));
  }

  lemma ListedMachines(s: State)
    requires RowsKeyed(s)
    ensures var listed := LoadListed(s, Ascending(ActiveMachines(s)));
            && DistinctMachines(listed)
            && forall m :: m in listed <==> m.machine.id in ActiveMachines(s) && m == LoadMachine(s, m.machine.id)
  {
    var ids := Ascending(ActiveMachines(s));
    var listed := LoadListed(s, ids);
    forall k | 0 <= k < |ids|
      ensures ids[k] in ActiveMachines(s) && listed[k].machine.id == ids[k]
    {
      assert ids[k] in ids;
    }
    forall m: LoadedMachine | m.machine.id in ActiveMachines(s) && m == LoadMachine(s, m.machine.id)
      ensures m in listed
    {
      var k :| 0 <= k < |ids| && ids[k] == m.machine.id;
      assert listed[k] == m;
    }
  }

  // ----- fingerprints -----

  datatype QueueEntry = QueueEntry(
    id: Id, position: int, status: TaskStatus, updatedAt: int, orders: map<Id, int>)

  /** What a machine's fingerprint hashes. */
  datatype MachinePrint = MachinePrint(
    active: bool, minWidth: real, maxWidth: real, categories: set<Id>, patterns: set<Id>, queue: seq<QueueEntry>)

  function Stamps(orders: Orders, ids: set<Id>): map<Id, int> {
    map i | i in ids && i in orders :: orders[i].updatedAt
  }

  function Contents(orders: Orders, ids: set<Id>): map<Id, Content> {
    map i | i in ids && i in orders :: orders[i].content
  }

  function QueueEntryOf(s: State, t: Id): QueueEntry
    requires t in s.tasks
  {
    var task := s.tasks[t];
    QueueEntry(t, task.position, task.status, task.updatedAt, Stamps(s.orders, OrdersOfTask(s.orders, t)))
  }

  function PrintOf(s: State, m: Id): MachinePrint
    requires m in s.machines
  {
    var machine, queue := s.machines[m], Queue(s.tasks, m);
    MachinePrint(machine.active, machine.minWidth, machine.maxWidth, machine.categories, machine.patterns.Keys,
                 seq(|queue|, k requires 0 <= k < |queue| => assert queue[k] in queue; QueueEntryOf(s, queue[k])))
  }

  /**
   * The snapshot kept with a draft. Hashes stand as the payloads they are taken of; a missing entry is None,
   * or absent from a map.
   */
  datatype Fingerprint = Fingerprint(
    stamps: map<Id, int>, rules: Option<int>, byCount: bool, contents: Option<map<Id, Content>>,
    pending: Option<set<Id>>, machineSet: Option<set<Id>>, machines: map<Id, MachinePrint>, scoped: bool)

  function FingerprintOf(s: State, ids: set<Id>, scoped: bool): Fingerprint
    requires ids <= s.orders.Keys
  {
    Fingerprint(Stamps(s.orders, ids), Some(RULE_VERSION),
                ByTaskCount(Rows(s.orders, Ascending(ids)), LoadMachines(s)),
                Some(Contents(s.orders, ids)), Some(ids), Some(ActiveMachines(s)),
                map m | m in ActiveMachines(s) :: PrintOf(s, m), scoped)
  }
}
