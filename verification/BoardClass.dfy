/** The production board as the service keeps it: rows changed in place, one locked operation at a time. */
module BoardClass {
  import opened Sequences
  import opened Records
  import opened ProductionRules
  import opened Tables
  import opened Queues
  import opened BoardSafety
  import opened BoardFrames
  import opened BoardQueues
  import B = Board

  /** Accepted, leaving the state the specification names, or refused with its error and nothing changed. */
  predicate Does(outcome: B.Outcome, error: Option<B.BoardError>, before: B.State, after: B.State) {
    match outcome
    case Ok(s) => error == None && after == s
    case Err(e) => error == Some(e) && after == before
  }

  class ProductionBoard {
    const machines: map<Id, Machine>
    var orders: Orders
    var tasks: Tasks

    /** An empty board over the given machines. */
    constructor (machines: map<Id, Machine>)
      requires forall m :: m in machines ==> machines[m].id == m
      ensures Now() == B.State(machines, map[], map[]) && B.Inv(Now())
    {
      this.machines, this.orders, this.tasks := machines, map[], map[];
    }

    function Now(): B.State
      reads this
    {
      B.State(machines, orders, tasks)
    }

    method Link(ids: seq<Id>, status: OrderStatus, taskId: Option<Id>, now: int)
      requires forall o :: o in ids ==> o in orders
      modifies `orders
      ensures orders == B.Linked(old(orders), SetOf(ids), status, taskId, now)
    {
      var i := 0;
      while i < |ids|
        invariant 0 <= i <= |ids|
        invariant orders == B.Linked(old(orders), SetOf(ids[..i]), status, taskId, now)
      {
        LinkOneMore(old(orders), ids, i, status, taskId, now);
        var order := orders[ids[i]];
        if order.status != status || order.taskId != taskId {
          orders := orders[ids[i] := order.(status := status, taskId := taskId, updatedAt := now)];
        }
        i := i + 1;
      }
      assert ids[..i] == ids;
    }

    method AddTask(task: Task)
      modifies `tasks
      ensures tasks == old(tasks)[task.id := task]
    {
      tasks := tasks[task.id := task];
    }

    /** Number the tasks of q from 1. */
    method AssignPositions(q: seq<Id>, now: int)
      requires NoDuplicates(q) && forall t :: t in q ==> t in tasks
      modifies `tasks
      ensures tasks == Renumber(old(tasks), q, now)
    {
      var i := 0;
      assert q[..0] == [];
      while i < |q|
        invariant 0 <= i <= |q|
        invariant tasks == Renumber(old(tasks), q[..i], now)
      {
        assert q[..i + 1][..i] == q[..i];
        if tasks[q[i]].position != i + 1 {
          tasks := tasks[q[i] := tasks[q[i]].(position := i + 1, updatedAt := now)];
        }
        i := i + 1;
      }
      assert q[..i] == q;
    }

    method NormaliseQueue(machineId: Id, now: int)
      modifies `tasks
      ensures tasks == B.Normalised(old(tasks), machineId, now)
    {
      InOrderNoDuplicates(tasks, Queue(tasks, machineId));
      AssignPositions(Queue(tasks, machineId), now);
    }

    method FirstTaken(orderIds: seq<Id>) returns (taken: bool)
      requires forall o :: o in orderIds ==> o in orders
      ensures taken <==> exists o :: o in orderIds && !B.Unlinked(orders[o])
    {
      var i := 0;
      while i < |orderIds|
        invariant 0 <= i <= |orderIds|
        invariant forall k :: 0 <= k < i ==> B.Unlinked(orders[orderIds[k]])
      {
        if orders[orderIds[i]].status != OrderPending || orders[orderIds[i]].taskId != None {
          return true;
        }
        i := i + 1;
      }
      taken := false;
    }

    method CreateTask(machineId: Option<Id>, orderIds: seq<Id>, newId: Id, now: int) returns (error: Option<B.BoardError>)
      requires newId !in tasks
      modifies this
      ensures Does(B.CreateTask(old(Now()), machineId, orderIds, newId, now), error, old(Now()), Now())
      ensures old(B.Inv(Now())) ==> B.Inv(Now())
    {
      if machineId.None? || orderIds == [] { return Some(B.MissingArguments); }
      if !NoDuplicates(orderIds) { return Some(B.DuplicateIds); }
      if machineId.value !in machines { return Some(B.MachineMissing); }
      if exists o :: o in orderIds && o !in orders { return Some(B.OrderMissing); }
      var taken := FirstTaken(orderIds);
      if taken { return Some(B.OrderTaken); }
      var verdict := ValidateBatch(machines[machineId.value], Rows(orders, orderIds));
      if verdict.Err? { return Some(B.Rejected(verdict.error)); }
      ghost var before := Now();
      var position := NextPosition(tasks, Active(tasks, machineId.value));
      tasks := tasks[newId := Task(newId, machineId.value, position, TaskWaiting, now)];
      Link(orderIds, OrderProducing, Some(newId), now);
      if B.Inv(before) { CreateTaskKeepsInv(before, machineId, orderIds, newId, now); }
      return None;
    }

    method UpdateTask(taskId: Id, u: B.TaskUpdate, now: int) returns (error: Option<B.BoardError>)
      modifies this
      ensures Does(B.UpdateTask(old(Now()), taskId, u, now), error, old(Now()), Now())
      ensures old(B.Inv(Now())) ==> B.Inv(Now())
    {
      if u.unsupported { return Some(B.UnsupportedField); }
      if u.status.None? { return Some(B.MissingArguments); }
      if taskId !in tasks { return Some(B.TaskMissing); }
      var task, status := tasks[taskId], u.status.value;
      if task.machineId !in machines { return Some(B.MachineMissing); }
      if !B.AsExpected(Now(), task, u) { return Some(B.Changed); }
      if status == task.status { return None; }
      if !B.Allowed(task.status, status) { return Some(B.BadTransition); }
      ghost var before := Now();
      var held := Ascending(B.OrdersOfTask(orders, taskId));
      var position := task.position;
      if status == TaskProducing {
        var verdict := ValidateBatch(machines[task.machineId], Rows(orders, held));
        if verdict.Err? { return Some(B.Rejected(verdict.error)); }
        if B.OtherProducing(tasks, task) { return Some(B.MachineBusy); }
        if task.status == TaskDone {
          position := NextPosition(tasks, Active(tasks, task.machineId));
        }
      }
      SetStatus(taskId, status, position, now);
      if B.Inv(before) { UpdateTaskKeepsInv(before, taskId, u, now); }
      return None;
    }

    /** The task's new status and position, and the status its orders take with it. */
    method SetStatus(taskId: Id, status: TaskStatus, position: int, now: int)
      requires taskId in tasks
      modifies this
      ensures orders == B.Linked(old(orders), B.OrdersOfTask(old(orders), taskId),
                                 if status == TaskDone then OrderDone else OrderProducing, Some(taskId), now)
      ensures tasks == old(tasks)[taskId := old(tasks)[taskId].(status := status, position := position, updatedAt := now)]
    {
      var held := Ascending(B.OrdersOfTask(orders, taskId));
      assert SetOf(held) == B.OrdersOfTask(orders, taskId);
      Link(held, if status == TaskDone then OrderDone else OrderProducing, Some(taskId), now);
      tasks := tasks[taskId := tasks[taskId].(status := status, position := position, updatedAt := now)];
    }

    method DeleteTask(taskId: Id, now: int) returns (error: Option<B.BoardError>)
      modifies this
      ensures Does(B.DeleteTask(old(Now()), taskId, now), error, old(Now()), Now())
      ensures old(B.Inv(Now())) ==> B.Inv(Now())
      ensures error == None ==> Contiguous(tasks, old(tasks)[taskId].machineId)
    {
      if taskId !in tasks { return Some(B.TaskMissing); }
      var task := tasks[taskId];
      if task.machineId !in machines { return Some(B.MachineMissing); }
      if task.status != TaskWaiting { return Some(B.NotWaiting); }
      ghost var before := Now();
      TakeOff(taskId, now);
      DeleteTaskRemoves(before, taskId, now, task.machineId);
      if B.Inv(before) { DeleteTaskKeepsInv(before, taskId, now); }
      return None;
    }

    /** Free a task's orders, remove the row and close the gap in its queue. */
    method TakeOff(taskId: Id, now: int)
      requires taskId in tasks
      modifies this
      ensures orders == B.Linked(old(orders), B.OrdersOfTask(old(orders), taskId), OrderPending, None, now)
      ensures tasks == B.Normalised(old(tasks) - {taskId}, old(tasks)[taskId].machineId, now)
    {
      var machineId := tasks[taskId].machineId;
      var held := Ascending(B.OrdersOfTask(orders, taskId));
      assert SetOf(held) == B.OrdersOfTask(orders, taskId);
      Link(held, OrderPending, None, now);
      tasks := tasks - {taskId};
      NormaliseQueue(machineId, now);
    }

    /** The order leaves its task, if any, and joins a task, a new task of a machine, or the pending orders. */
    method MoveOrder(orderId: Id, source: Option<Id>, targetTask: Option<Id>, targetMachine: Option<Id>,
                     newId: Id, now: int)
      returns (error: Option<B.BoardError>)
      requires newId !in tasks
      modifies this
      ensures Does(B.MoveOrder(old(Now()), orderId, source, targetTask, targetMachine, newId, now), error,
                   old(Now()), Now())
      ensures old(B.Inv(Now())) ==> B.Inv(Now())
    {
      if targetTask.Some? && targetMachine.Some? { return Some(B.TwoTargets); }
      if source.Some? && source == targetTask { return None; }
      if (source.Some? && source.value !in tasks) || (targetTask.Some? && targetTask.value !in tasks) {
        return Some(B.TaskMissing);
      }
      if (source.Some? && tasks[source.value].machineId !in machines)
         || (targetTask.Some? && tasks[targetTask.value].machineId !in machines)
         || (targetMachine.Some? && targetMachine.value !in machines) {
        return Some(B.MachineMissing);
      }
      if orderId !in orders { return Some(B.OrderMissing); }
      var target := if targetTask.Some? then B.ToTask(targetTask.value)
                    else if targetMachine.Some? then B.ToMachine(targetMachine.value) else B.ToPending;
      var refusal := B.LeaveError(Now(), orderId, source);
      if refusal.Some? { return refusal; }
      refusal := B.BatchError(Now(), orderId, source, target);
      if refusal.Some? { return refusal; }
      ghost var before := Now();
      CarryOver(orderId, source, target, newId, now);
      if B.Inv(before) { MoveOrderKeepsInv(before, orderId, source, targetTask, targetMachine, newId, now); }
      return None;
    }

    method CarryOver(orderId: Id, source: Option<Id>, target: B.Target, newId: Id, now: int)
      requires orderId in orders && (source.Some? ==> source.value in tasks)
      modifies this
      ensures var moved := B.Moved(old(Now()), orderId, source, target, newId, now);
              var left := if source.Some? then Some(old(tasks)[source.value].machineId) else None;
              var joined := if target.ToMachine? then Some(target.machineId) else None;
              Now() == moved.(tasks := B.Tidied(moved.tasks, left, joined, now))
    {
      var left := if source.Some? then Some(tasks[source.value].machineId) else None;
      Rehang(orderId, source, target, newId, now);
      Tidy(left, if target.ToMachine? then Some(target.machineId) else None, now);
    }

    /** The order's link and status, the new task and the emptied one. */
    method Rehang(orderId: Id, source: Option<Id>, target: B.Target, newId: Id, now: int)
      requires orderId in orders && (source.Some? ==> source.value in tasks)
      modifies this
      ensures Now() == B.Moved(old(Now()), orderId, source, target, newId, now)
    {
      var emptied := source.Some? && B.OrdersOfTask(orders, source.value) <= {orderId};
      match target {
        case ToTask(t) =>
          Link([orderId], OrderProducing, Some(t), now);
        case ToMachine(m) =>
          tasks := tasks[newId := Task(newId, m, NextPosition(tasks, Active(tasks, m)), TaskWaiting, now)];
          Link([orderId], OrderProducing, Some(newId), now);
        case ToPending =>
          Link([orderId], OrderPending, None, now);
      }
      assert SetOf([orderId]) == {orderId};
      if emptied { tasks := tasks - {source.value}; }
    }

    method Tidy(left: Option<Id>, joined: Option<Id>, now: int)
      modifies `tasks
      ensures tasks == B.Tidied(old(tasks), left, joined, now)
    {
      if left.Some? { NormaliseQueue(left.value, now); }
      if joined.Some? && joined != left { NormaliseQueue(joined.value, now); }
    }

    method MoveTask(taskId: Id, machineId: Id, index: nat, now: int) returns (error: Option<B.BoardError>)
      modifies this
      ensures Does(B.MoveTask(old(Now()), taskId, machineId, index, now), error, old(Now()), Now())
      ensures old(B.Inv(Now())) ==> B.Inv(Now())
    {
      if taskId !in tasks { return Some(B.TaskMissing); }
      var task := tasks[taskId];
      if task.machineId !in machines || machineId !in machines { return Some(B.MachineMissing); }
      if task.status != TaskWaiting { return Some(B.NotWaiting); }
      var held := Ascending(B.OrdersOfTask(orders, taskId));
      var verdict := ValidateBatch(machines[machineId], Rows(orders, held));
      if verdict.Err? { return Some(B.Rejected(verdict.error)); }
      ghost var before := Now();
      Relocate(taskId, machineId, index, now);
      if B.Inv(before) { MoveTaskKeepsInv(before, taskId, machineId, index, now); }
      return None;
    }

    method Relocate(taskId: Id, machineId: Id, index: nat, now: int)
      requires taskId in tasks && tasks[taskId].status == TaskWaiting
      modifies `tasks
      ensures tasks == B.Relocated(old(tasks), taskId, machineId, index, now)
    {
      var task := tasks[taskId];
      var without := Remove(Queue(tasks, task.machineId), taskId);
      if machineId == task.machineId {
        PlacedWithinQueue(tasks, taskId, index);
        AssignPositions(InsertAt(without, index, taskId), now);
      } else {
        RehomedQueues(tasks, taskId, machineId, index, now);
        var into := InsertAt(Queue(tasks, machineId), index, taskId);
        tasks := tasks[taskId := task.(machineId := machineId, updatedAt := now)];
        AssignPositions(without, now);
        AssignPositions(into, now);
      }
    }

    method ReorderTasks(machineId: Id, ids: seq<Id>, now: int) returns (error: Option<B.BoardError>)
      modifies this
      ensures Does(B.ReorderTasks(old(Now()), machineId, ids, now), error, old(Now()), Now())
      ensures old(B.Inv(Now())) ==> B.Inv(Now())
      ensures error == None ==> Queue(tasks, machineId) == ids && Contiguous(tasks, machineId)
    {
      if !NoDuplicates(ids) { return Some(B.DuplicateIds); }
      if machineId !in machines { return Some(B.MachineMissing); }
      if SetOf(ids) != Active(tasks, machineId) { return Some(B.QueueChanged); }
      ghost var before := Now();
      AssignPositions(ids, now);
      ReorderTasksSets(before, machineId, ids, now, machineId);
      if B.Inv(before) { ReorderTasksKeepsInv(before, machineId, ids, now); }
      return None;
    }

    method CreateOrder(newId: Id, content: Content, now: int)
      requires newId !in orders
      modifies `orders
      ensures Now() == B.CreateOrder(old(Now()), newId, content, now)
      ensures old(B.Inv(Now())) ==> B.Inv(Now())
    {
      ghost var before := Now();
      orders := orders[newId := Order(newId, content, OrderPending, None, now, now)];
      if B.Inv(before) { CreateOrderKeepsInv(before, newId, content, now); }
    }

    method UpdateOrder(orderId: Id, content: Option<Content>, status: Option<OrderStatus>, now: int)
      returns (error: Option<B.BoardError>)
      modifies `orders
      ensures Does(B.UpdateOrder(old(Now()), orderId, content, status, now), error, old(Now()), Now())
      ensures old(B.Inv(Now())) ==> B.Inv(Now())
    {
      if orderId !in orders { return Some(B.OrderMissing); }
      var stored := orders[orderId];
      if stored.taskId.Some? && (content.Some? || status.Some?) { return Some(B.OrderLinked); }
      if status.Some? && status.value != OrderPending { return Some(B.StatusNotAllowed); }
      ghost var before := Now();
      var edited := stored;
      if content.Some? { edited := edited.(content := content.value); }
      if status.Some? { edited := edited.(status := OrderPending, taskId := None); }
      if edited != stored { edited := edited.(updatedAt := now); }
      orders := orders[orderId := edited];
      if B.Inv(before) { UpdateOrderKeepsInv(before, orderId, content, status, now); }
      return None;
    }

    method DeleteOrder(orderId: Id) returns (error: Option<B.BoardError>)
      modifies `orders
      ensures Does(B.DeleteOrder(old(Now()), orderId), error, old(Now()), Now())
      ensures old(B.Inv(Now())) ==> B.Inv(Now())
    {
      if orderId !in orders { return Some(B.OrderMissing); }
      if orders[orderId].taskId.Some? { return Some(B.OrderLinked); }
      ghost var before := Now();
      orders := orders - {orderId};
      if B.Inv(before) { DeleteOrderKeepsInv(before, orderId); }
      return None;
    }
  }

  lemma LinkOneMore(orders: Orders, ids: seq<Id>, i: nat, status: OrderStatus, taskId: Option<Id>, now: int)
    requires i < |ids| && forall o :: o in ids ==> o in orders
    ensures var done := B.Linked(orders, SetOf(ids[..i]), status, taskId, now);
            B.Linked(orders, SetOf(ids[..i + 1]), status, taskId, now)
            == done[ids[i] := B.Stamped(done[ids[i]], status, taskId, now)]
  {
    assert ids[..i + 1] == ids[..i] + [ids[i]];
  }
}
