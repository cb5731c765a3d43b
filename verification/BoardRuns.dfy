/** Any run of board, order and plan operations over fixed machines. */
module BoardRuns {
  import opened Sequences
  import opened Records
  import opened ProductionRules
  import opened Tables
  import opened Queues
  import opened Board
  import opened BoardSafety
  import opened BoardQueues
  import opened SchedulePlans
  import opened PlanApplication

  datatype Op =
    | DoCreateTask(onMachine: Option<Id>, orderIds: seq<Id>, newId: Id)
    | DoUpdateTask(taskId: Id, update: TaskUpdate)
    | DoDeleteTask(taskId: Id)
    | DoMoveOrder(orderId: Id, source: Option<Id>, targetTask: Option<Id>, targetMachine: Option<Id>, newId: Id)
    | DoMoveTask(taskId: Id, machineId: Id, index: nat)
    | DoReorderTasks(machineId: Id, ids: seq<Id>)
    | DoCreateOrder(newId: Id, content: Content)
    | DoUpdateOrder(orderId: Id, changed: Option<Content>, status: Option<OrderStatus>)
    | DoDeleteOrder(orderId: Id)
    | DoApplyPlan(plan: Plan, newIds: seq<Id>)

  /** Generated identifiers are new. */
  predicate Fresh(s: State, op: Op) {
    match op
    case DoCreateTask(_, _, newId) => newId !in s.tasks
    case DoMoveOrder(_, _, _, _, newId) => newId !in s.tasks
    case DoCreateOrder(newId, _) => newId !in s.orders
    case DoApplyPlan(plan, newIds) => |newIds| == |plan.tasks| && FreshIds(s, newIds)
    case _ => true
  }

  function Settled(s: State, outcome: Outcome): State {
    match outcome
    case Ok(s') => s'
    case Err(_) => s
  }

  /** A refused operation is rolled back. */
  function Step(s: State, op: Op, now: int): State
    requires Fresh(s, op)
  {
    match op
    case DoCreateTask(m, ids, newId) => Settled(s, CreateTask(s, m, ids, newId, now))
    case DoUpdateTask(t, u) => Settled(s, UpdateTask(s, t, u, now))
    case DoDeleteTask(t) => Settled(s, DeleteTask(s, t, now))
    case DoMoveOrder(o, source, t, m, newId) => Settled(s, MoveOrder(s, o, source, t, m, newId, now))
    case DoMoveTask(t, m, i) => Settled(s, MoveTask(s, t, m, i, now))
    case DoReorderTasks(m, ids) => Settled(s, ReorderTasks(s, m, ids, now))
    case DoCreateOrder(newId, content) => CreateOrder(s, newId, content, now)
    case DoUpdateOrder(o, content, status) => Settled(s, UpdateOrder(s, o, content, status, now))
    case DoDeleteOrder(o) => Settled(s, DeleteOrder(s, o))
    case DoApplyPlan(p, newIds) =>
      match ApplyPlan(s, p, newIds, now)
      case Ok(r) => r.0
      case Err(_) => s
  }

  lemma StepKeepsInv(s: State, op: Op, now: int)
    requires Inv(s) && Fresh(s, op)
    ensures Inv(Step(s, op, now))
  {
    if Step(s, op, now) != s {
      match op
      case DoCreateTask(m, ids, newId) => CreateTaskKeepsInv(s, m, ids, newId, now);
      case DoUpdateTask(t, u) => UpdateTaskKeepsInv(s, t, u, now);
      case DoDeleteTask(t) => DeleteTaskKeepsInv(s, t, now);
      case DoMoveOrder(o, source, t, m, newId) => MoveOrderKeepsInv(s, o, source, t, m, newId, now);
      case DoMoveTask(t, m, i) => MoveTaskKeepsInv(s, t, m, i, now);
      case DoReorderTasks(m, ids) => ReorderTasksKeepsInv(s, m, ids, now);
      case DoCreateOrder(newId, content) => CreateOrderKeepsInv(s, newId, content, now);
      case DoUpdateOrder(o, content, status) => UpdateOrderKeepsInv(s, o, content, status, now);
      case DoDeleteOrder(o) => DeleteOrderKeepsInv(s, o);
      case DoApplyPlan(p, newIds) => ApplyKeepsInv(s, p, newIds, now);
    }
  }

  /** The states of a run, first to last: each is the one before, changed by the next operation. */
  ghost predicate IsRun(states: seq<State>, ops: seq<Op>, times: seq<int>) {
    && |states| == |ops| + 1 && |times| == |ops|
    && forall k :: 0 <= k < |ops| ==> Fresh(states[k], ops[k]) && states[k + 1] == Step(states[k], ops[k], times[k])
  }

  predicate BothProducing(tasks: Tasks, t: Id, u: Id)
    requires t in tasks && u in tasks
  {
    t != u && tasks[t].status == TaskProducing && tasks[u].status == TaskProducing
  }

  ghost predicate PendingWithoutTask(s: State) {
    forall o :: o in s.orders ==> (s.orders[o].status == OrderPending <==> s.orders[o].taskId == None)
  }

  ghost predicate LinkedFollowTask(s: State) {
    forall o :: o in s.orders && s.orders[o].taskId.Some? ==>
      var t := s.orders[o].taskId.value;
      t in s.tasks && s.orders[o].status == if s.tasks[t].status == TaskDone then OrderDone else OrderProducing
  }

  ghost predicate TasksAccepted(s: State) {
    forall t {:trigger BatchValid(s, t)} :: t in s.tasks ==> OrdersOfTask(s.orders, t) != {} && BatchValid(s, t)
  }

  ghost predicate OneProducerEach(tasks: Tasks) {
    forall t, u :: t in tasks && u in tasks && BothProducing(tasks, t, u) ==> tasks[t].machineId != tasks[u].machineId
  }

  ghost predicate QueuesAscend(tasks: Tasks) {
    && (forall t :: t in tasks ==> tasks[t].position >= 1)
    && forall m, i: nat, j: nat :: i < j < |Queue(tasks, m)| ==>
         tasks[Queue(tasks, m)[i]].position < tasks[Queue(tasks, m)[j]].position
  }

  /** What the board promises of every state. */
  ghost predicate Safe(s: State) {
    PendingWithoutTask(s) && LinkedFollowTask(s) && TasksAccepted(s) && OneProducerEach(s.tasks) && QueuesAscend(s.tasks)
  }

  lemma InvIsSafe(s: State)
    requires Inv(s)
    ensures Safe(s)
  {
    StatusesSafe(s);
    BatchesSafe(s);
    ProducersApart(s.tasks);
    QueuesSafe(s.tasks);
  }

  lemma StatusesSafe(s: State)
    requires StatusesAgree(s)
    ensures PendingWithoutTask(s) && LinkedFollowTask(s)
  {
  }

  lemma BatchesSafe(s: State)
    requires BatchesValid(s)
    ensures TasksAccepted(s)
  {
    forall t | t in s.tasks
      ensures OrdersOfTask(s.orders, t) != {} && BatchValid(s, t)
    {
      assert BatchValid(s, t);
      NonEmptyBatch(s.machines[s.tasks[t].machineId], s.orders, OrdersOfTask(s.orders, t));
    }
  }

  lemma QueuesSafe(tasks: Tasks)
    requires PositionsDistinct(tasks)
    ensures QueuesAscend(tasks)
  {
    forall m, i: nat, j: nat | i < j < |Queue(tasks, m)|
      ensures tasks[Queue(tasks, m)[i]].position < tasks[Queue(tasks, m)[j]].position
    {
      QueuePositions(tasks, m, i, j);
    }
  }

  lemma ProducersApart(tasks: Tasks)
    requires OneProducing(tasks)
    ensures OneProducerEach(tasks)
  {
    forall t, u | t in tasks && u in tasks && BothProducing(tasks, t, u)
      ensures tasks[t].machineId != tasks[u].machineId
    {
      if tasks[t].machineId == tasks[u].machineId {
        assert Contenders(tasks, t, u);
      }
    }
  }

  lemma QueuePositions(tasks: Tasks, m: Id, i: nat, j: nat)
    requires PositionsDistinct(tasks) && i < j < |Queue(tasks, m)|
    ensures tasks[Queue(tasks, m)[i]].position < tasks[Queue(tasks, m)[j]].position
  {
    var q := Queue(tasks, m);
    assert q[i] in q && q[j] in q;
    assert Earlier(tasks, q[i], q[j]);
    assert Contenders(tasks, q[i], q[j]);
  }

  /** In every run from a sound board, in particular from an empty one, every state is safe. */
  lemma {:induction false} EveryStateSafe(states: seq<State>, ops: seq<Op>, times: seq<int>, k: nat)
    requires IsRun(states, ops, times) && Inv(states[0]) && k < |states|
    ensures Inv(states[k]) && Safe(states[k])
  {
    if k > 0 {
      EveryStateSafe(states, ops, times, k - 1);
      StepKeepsInv(states[k - 1], ops[k - 1], times[k - 1]);
    }
    InvIsSafe(states[k]);
  }

  lemma EmptyBoardIsSound(machines: map<Id, Machine>)
    requires forall m :: m in machines ==> machines[m].id == m
    ensures Inv(State(machines, map[], map[]))
  {
  }

  predicate EditsOrders(op: Op) { op.DoCreateOrder? || op.DoUpdateOrder? || op.DoDeleteOrder? }

  /** The same orders, asking for the same things. */
  ghost predicate SameDemand(orders: Orders, orders': Orders) {
    && orders'.Keys == orders.Keys
    && forall o :: o in orders ==>
         orders'[o].(status := orders[o].status, taskId := orders[o].taskId, updatedAt := orders[o].updatedAt) == orders[o]
  }

  lemma LinkingKeepsDemand(orders: Orders, ids: set<Id>, status: OrderStatus, taskId: Option<Id>, now: int)
    ensures SameDemand(orders, Linked(orders, ids, status, taskId, now))
  {
  }

  lemma {:induction false} PlacingKeepsDemand(s: State, entries: seq<Entry>, newIds: seq<Id>, now: int)
    requires |newIds| == |entries|
    ensures SameDemand(s.orders, PlaceAll(s, entries, newIds, now).orders)
  {
    if entries != [] {
      var n := |entries| - 1;
      PlacingKeepsDemand(s, entries[..n], newIds[..n], now);
      LinkingKeepsDemand(PlaceAll(s, entries[..n], newIds[..n], now).orders,
                         SetOf(entries[n].orderIds), OrderProducing, Some(newIds[n]), now);
    }
  }

  predicate OnTasks(op: Op) {
    op.DoCreateTask? || op.DoUpdateTask? || op.DoDeleteTask? || op.DoMoveOrder? || op.DoMoveTask? || op.DoReorderTasks?
  }

  /** At most, some orders have been linked to one task or to none. */
  ghost predicate Relinked(orders: Orders, orders': Orders, now: int) {
    orders' == orders || exists ids, status, taskId :: orders' == Linked(orders, ids, status, taskId, now)
  }

  ghost predicate Relinks(s: State, outcome: Outcome, now: int) {
    outcome.Ok? ==> Relinked(s.orders, outcome.value.orders, now)
  }

  lemma CreateTaskRelinks(s: State, m: Option<Id>, ids: seq<Id>, newId: Id, now: int)
    ensures Relinks(s, CreateTask(s, m, ids, newId, now), now)
  {
    var outcome := CreateTask(s, m, ids, newId, now);
    assert outcome.Ok? ==> outcome.value.orders == Linked(s.orders, SetOf(ids), OrderProducing, Some(newId), now);
  }

  lemma UpdateTaskRelinks(s: State, t: Id, u: TaskUpdate, now: int)
    ensures Relinks(s, UpdateTask(s, t, u, now), now)
  {
    if UpdateTask(s, t, u, now).Ok? && UpdateTask(s, t, u, now).value != s {
      var status := if u.status == Some(TaskDone) then OrderDone else OrderProducing;
      assert UpdateTask(s, t, u, now).value.orders == Linked(s.orders, OrdersOfTask(s.orders, t), status, Some(t), now);
    }
  }

  lemma DeleteTaskRelinks(s: State, t: Id, now: int)
    ensures Relinks(s, DeleteTask(s, t, now), now)
  {
    var outcome := DeleteTask(s, t, now);
    assert outcome.Ok? ==> outcome.value.orders == Linked(s.orders, OrdersOfTask(s.orders, t), OrderPending, None, now);
  }

  lemma MovedRelinked(s: State, orderId: Id, source: Option<Id>, target: Target, newId: Id, now: int)
    ensures Relinked(s.orders, Moved(s, orderId, source, target, newId, now).orders, now)
  {
    var orders := Moved(s, orderId, source, target, newId, now).orders;
    match target
    case ToTask(t) => assert orders == Linked(s.orders, {orderId}, OrderProducing, Some(t), now);
    case ToMachine(_) => assert orders == Linked(s.orders, {orderId}, OrderProducing, Some(newId), now);
    case ToPending => assert orders == Linked(s.orders, {orderId}, OrderPending, None, now);
  }

  lemma MoveOrderRelinks(s: State, o: Id, source: Option<Id>, t: Option<Id>, m: Option<Id>, newId: Id, now: int)
    ensures Relinks(s, MoveOrder(s, o, source, t, m, newId, now), now)
  {
    var target := if t.Some? then ToTask(t.value) else if m.Some? then ToMachine(m.value) else ToPending;
    MovedRelinked(s, o, source, target, newId, now);
  }

  lemma TaskStepRelinks(s: State, op: Op, now: int)
    requires Fresh(s, op) && OnTasks(op)
    ensures Relinked(s.orders, Step(s, op, now).orders, now)
  {
    match op
    case DoCreateTask(m, ids, newId) => CreateTaskRelinks(s, m, ids, newId, now);
    case DoUpdateTask(t, u) => UpdateTaskRelinks(s, t, u, now);
    case DoDeleteTask(t) => DeleteTaskRelinks(s, t, now);
    case DoMoveOrder(o, source, t, m, newId) => MoveOrderRelinks(s, o, source, t, m, newId, now);
    case DoMoveTask(_, _, _) =>
    case DoReorderTasks(_, _) =>
  }

  lemma RelinkedKeepsDemand(orders: Orders, orders': Orders, now: int)
    requires Relinked(orders, orders', now)
    ensures SameDemand(orders, orders')
  {
  }

  /** Board operations and plans neither make nor lose orders, nor change what they ask for. */
  lemma TasksLeaveOrdersAlone(s: State, op: Op, now: int)
    requires Fresh(s, op) && !EditsOrders(op)
    ensures SameDemand(s.orders, Step(s, op, now).orders)
  {
    if OnTasks(op) {
      TaskStepRelinks(s, op, now);
      RelinkedKeepsDemand(s.orders, Step(s, op, now).orders, now);
    } else {
      PlacingKeepsDemand(s, op.plan.tasks, op.newIds, now);
    }
  }
}
