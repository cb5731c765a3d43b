/** Time stamps of the board's rows: whatever changes a row stamps it, so that a stamp seen before tells whether it changed. */
module BoardStamps {
  import opened Sequences
  import opened Records
  import opened Tables
  import opened Queues
  import opened Board
  import opened SchedulePlans
  import opened PlanApplication
  import opened BoardRuns

  // ----- in one operation -----

  /** Every row of b is as in a, or carries the stamp. */
  ghost predicate TasksStamped(a: Tasks, b: Tasks, now: int) {
    forall t :: t in b ==> b[t].updatedAt == now || (t in a && b[t] == a[t])
  }

  ghost predicate OrdersStamped(a: Orders, b: Orders, now: int) {
    forall o :: o in b ==> b[o].updatedAt == now || (o in a && b[o] == a[o])
  }

  ghost predicate RowsStamped(a: State, b: State, now: int) { TasksStamped(a.tasks, b.tasks, now) && OrdersStamped(a.orders, b.orders, now) }

  lemma {:induction false} RenumberStamps(a: Tasks, tasks: Tasks, q: seq<Id>, now: int)
    requires TasksStamped(a, tasks, now) && forall t :: t in q ==> t in tasks
    ensures TasksStamped(a, Renumber(tasks, q, now), now)
  {
    if q != [] {
      RenumberStamps(a, tasks, q[..|q| - 1], now);
    }
  }

  lemma NormalisedStamps(a: Tasks, tasks: Tasks, m: Id, now: int)
    requires TasksStamped(a, tasks, now)
    ensures TasksStamped(a, Normalised(tasks, m, now), now)
  {
    RenumberStamps(a, tasks, Queue(tasks, m), now);
  }

  lemma LinkedStamps(orders: Orders, ids: set<Id>, status: OrderStatus, taskId: Option<Id>, now: int)
    ensures OrdersStamped(orders, Linked(orders, ids, status, taskId, now), now)
  {
  }

  lemma MoveOrderStamps(s: State, o: Id, source: Option<Id>, t: Option<Id>, m: Option<Id>, newId: Id, now: int)
    requires newId !in s.tasks && MoveOrder(s, o, source, t, m, newId, now).Ok?
    ensures RowsStamped(s, MoveOrder(s, o, source, t, m, newId, now).value, now)
  {
    if !(source.Some? && source == t) {
      var target := if t.Some? then ToTask(t.value) else if m.Some? then ToMachine(m.value) else ToPending;
      var moved := Moved(s, o, source, target, newId, now);
      var left := if source.Some? then Some(s.tasks[source.value].machineId) else None;
      MovedStamps(s, o, source, target, newId, now);
      TidiedStamps(s.tasks, moved.tasks, left, m, now);
    }
  }

  lemma MovedStamps(s: State, o: Id, source: Option<Id>, target: Target, newId: Id, now: int)
    ensures RowsStamped(s, Moved(s, o, source, target, newId, now), now)
  {
  }

  lemma TidiedStamps(a: Tasks, tasks: Tasks, left: Option<Id>, joined: Option<Id>, now: int)
    requires TasksStamped(a, tasks, now)
    ensures TasksStamped(a, Tidied(tasks, left, joined, now), now)
  {
    if left.Some? {
      NormalisedStamps(a, tasks, left.value, now);
    }
    var once := if left.Some? then Normalised(tasks, left.value, now) else tasks;
    if joined.Some? {
      NormalisedStamps(a, once, joined.value, now);
    }
  }

  lemma RelocatedStamps(tasks: Tasks, t: Id, m: Id, index: nat, now: int)
    requires t in tasks
    ensures TasksStamped(tasks, Relocated(tasks, t, m, index, now), now)
  {
    var q := Queue(tasks, tasks[t].machineId);
    var without := Remove(q, t);
    RemoveMembers(q, t);
    if m == tasks[t].machineId {
      InsertMembers(without, index, t);
      RenumberStamps(tasks, tasks, InsertAt(without, index, t), now);
    } else {
      InsertMembers(Queue(tasks, m), index, t);
      var moved := tasks[t := tasks[t].(machineId := m, updatedAt := now)];
      RenumberStamps(tasks, moved, without, now);
      RenumberStamps(tasks, Renumber(moved, without, now), InsertAt(Queue(tasks, m), index, t), now);
    }
  }

  lemma {:induction false} PlacingStamps(s: State, entries: seq<Entry>, newIds: seq<Id>, now: int)
    requires |newIds| == |entries|
    ensures RowsStamped(s, PlaceAll(s, entries, newIds, now), now)
  {
    if entries != [] {
      var n := |entries| - 1;
      PlacingStamps(s, entries[..n], newIds[..n], now);
    }
  }

  lemma DeletionStamps(s: State, t: Id, now: int)
    requires DeleteTask(s, t, now).Ok?
    ensures RowsStamped(s, DeleteTask(s, t, now).value, now)
  {
    NormalisedStamps(s.tasks, s.tasks - {t}, s.tasks[t].machineId, now);
  }

  lemma ReorderStamps(s: State, m: Id, ids: seq<Id>, now: int)
    requires ReorderTasks(s, m, ids, now).Ok?
    ensures RowsStamped(s, ReorderTasks(s, m, ids, now).value, now)
  {
    assert forall t :: t in ids ==> t in SetOf(ids);
    RenumberStamps(s.tasks, s.tasks, ids, now);
  }

  lemma ApplicationStamps(s: State, p: Plan, newIds: seq<Id>, now: int)
    requires |newIds| == |p.tasks| && ApplyPlan(s, p, newIds, now).Ok?
    ensures RowsStamped(s, ApplyPlan(s, p, newIds, now).value.0, now)
  {
    PlacingStamps(s, p.tasks, newIds, now);
  }

  /** Every row that an operation changes or makes carries its time; every other row is as it was. */
  lemma ChangesAreStamped(s: State, op: Op, now: int)
    requires Fresh(s, op)
    ensures RowsStamped(s, Step(s, op, now), now)
  {
    if Step(s, op, now) != s {
      match op
      case DoCreateTask(m, ids, newId) =>
      case DoUpdateTask(t, u) =>
      case DoDeleteTask(t) => DeletionStamps(s, t, now);
      case DoMoveOrder(o, source, t, m, newId) => MoveOrderStamps(s, o, source, t, m, newId, now);
      case DoMoveTask(t, m, i) => RelocatedStamps(s.tasks, t, m, i, now);
      case DoReorderTasks(m, ids) => ReorderStamps(s, m, ids, now);
      case DoCreateOrder(newId, content) =>
      case DoUpdateOrder(o, content, status) =>
      case DoDeleteOrder(o) =>
      case DoApplyPlan(p, newIds) => ApplicationStamps(s, p, newIds, now);
    }
  }

  // ----- over whole runs -----

  ghost predicate StampedAt(states: seq<State>, times: seq<int>, k: nat)
    requires k + 1 < |states| && k < |times|
  {
    RowsStamped(states[k], states[k + 1], times[k])
  }

  lemma RunIsStamped(states: seq<State>, ops: seq<Op>, times: seq<int>)
    requires IsRun(states, ops, times)
    ensures forall k: nat :: k < |ops| ==> StampedAt(states, times, k)
  {
    forall k: nat | k < |ops|
      ensures StampedAt(states, times, k)
    {
      ChangesAreStamped(states[k], ops[k], times[k]);
    }
  }

  lemma {:induction false} TaskStays(states: seq<State>, times: seq<int>, i: nat, j: nat, t: Id, stamp: int)
    requires |states| == |times| + 1 && i <= j < |states| && (forall k: nat :: i <= k < j ==> StampedAt(states, times, k) && times[k] != stamp)
    requires t in states[j].tasks && states[j].tasks[t].updatedAt == stamp
    ensures t in states[i].tasks && states[i].tasks[t] == states[j].tasks[t]
    decreases j
  {
    if i < j {
      assert StampedAt(states, times, j - 1);
      TaskStays(states, times, i, j - 1, t, stamp);
    }
  }

  lemma {:induction false} OrderStays(states: seq<State>, times: seq<int>, i: nat, j: nat, o: Id, stamp: int)
    requires |states| == |times| + 1 && i <= j < |states| && (forall k: nat :: i <= k < j ==> StampedAt(states, times, k) && times[k] != stamp)
    requires o in states[j].orders && states[j].orders[o].updatedAt == stamp
    ensures o in states[i].orders && states[i].orders[o] == states[j].orders[o]
    decreases j
  {
    if i < j {
      assert StampedAt(states, times, j - 1);
      OrderStays(states, times, i, j - 1, o, stamp);
    }
  }

  /** A task that carries a stamp seen before is the task seen before, as long as no operation since has had that time. */
  lemma StampTellsTask(states: seq<State>, ops: seq<Op>, times: seq<int>, i: nat, j: nat, t: Id)
    requires IsRun(states, ops, times) && i <= j < |states| && t in states[i].tasks && t in states[j].tasks
    requires states[j].tasks[t].updatedAt == states[i].tasks[t].updatedAt
    requires forall k: nat :: i <= k < j ==> times[k] != states[i].tasks[t].updatedAt
    ensures states[j].tasks[t] == states[i].tasks[t]
  {
    RunIsStamped(states, ops, times);
    TaskStays(states, times, i, j, t, states[i].tasks[t].updatedAt);
  }

  /** Likewise an order. */
  lemma StampTellsOrder(states: seq<State>, ops: seq<Op>, times: seq<int>, i: nat, j: nat, o: Id)
    requires IsRun(states, ops, times) && i <= j < |states| && o in states[i].orders && o in states[j].orders
    requires states[j].orders[o].updatedAt == states[i].orders[o].updatedAt
    requires forall k: nat :: i <= k < j ==> times[k] != states[i].orders[o].updatedAt
    ensures states[j].orders[o] == states[i].orders[o]
  {
    RunIsStamped(states, ops, times);
    OrderStays(states, times, i, j, o, states[i].orders[o].updatedAt);
  }
}
