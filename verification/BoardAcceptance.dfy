/** When the board accepts an operation, and what undoes a change of status. */
module BoardAcceptance {
  import opened Sequences
  import opened Records
  import opened ProductionRules
  import opened Tables
  import opened Queues
  import opened Board
  import opened BoardFrames
  import opened BoardSafety
  import opened BoardQueues

  // ----- changes of status -----

  /** The caller's view of the task, where it gave one, is the task as it stands. */
  predicate ExpectationsMet(s: State, taskId: Id, u: TaskUpdate)
    requires taskId in s.tasks
  {
    && (u.expectedStatus == None || u.expectedStatus == Some(s.tasks[taskId].status))
    && (u.expectedUpdatedAt == None || u.expectedUpdatedAt == Some(s.tasks[taskId].updatedAt))
    && (u.expectedOrders == None || u.expectedOrders == Some(set o | o in s.orders && s.orders[o].taskId == Some(taskId)))
  }

  /** No other task of the machine is in production. */
  predicate MachineFree(s: State, taskId: Id)
    requires taskId in s.tasks
  {
    forall u :: u in s.tasks && u != taskId && s.tasks[u].machineId == s.tasks[taskId].machineId ==>
      s.tasks[u].status != TaskProducing
  }

  lemma MachineIsFree(s: State, taskId: Id)
    requires taskId in s.tasks && s.tasks[taskId].id == taskId
    ensures OtherProducing(s.tasks, s.tasks[taskId]) <==> !MachineFree(s, taskId)
  {
  }

  lemma ExpectationsAreMet(s: State, taskId: Id, u: TaskUpdate)
    requires taskId in s.tasks && s.tasks[taskId].id == taskId
    ensures AsExpected(s, s.tasks[taskId], u) <==> ExpectationsMet(s, taskId, u)
  {
    assert OrdersOfTask(s.orders, taskId) == set o | o in s.orders && s.orders[o].taskId == Some(taskId);
  }

  lemma VerdictHolds(s: State, taskId: Id)
    requires BatchesValid(s) && taskId in s.tasks
    ensures s.tasks[taskId].machineId in s.machines
    ensures Verdict(s.machines[s.tasks[taskId].machineId], s.orders, OrdersOfTask(s.orders, taskId)).Ok?
  {
    assert BatchValid(s, taskId);
  }

  /**
   * On a sound board a task's status changes on request exactly when the caller sees it as it is and the change is one of
   * the four possible ones, or none; work starts, or starts again, only on a machine without other work.
   */
  lemma UpdateAcceptedExactlyWhen(s: State, taskId: Id, u: TaskUpdate, now: int)
    requires Inv(s)
    ensures UpdateTask(s, taskId, u, now).Ok?
            <==> && !u.unsupported && u.status.Some? && taskId in s.tasks && ExpectationsMet(s, taskId, u)
                 && var was, wanted := s.tasks[taskId].status, u.status.value;
                    || wanted == was
                    || (was == TaskWaiting && wanted == TaskProducing && MachineFree(s, taskId))
                    || (was == TaskProducing && wanted == TaskDone)
                    || (was == TaskProducing && wanted == TaskWaiting)
                    || (was == TaskDone && wanted == TaskProducing && MachineFree(s, taskId))
  {
    if taskId in s.tasks && !u.unsupported && u.status.Some? {
      VerdictHolds(s, taskId);
      ChecksOfUpdate(s, taskId, u, now);
      MachineIsFree(s, taskId);
      ExpectationsAreMet(s, taskId, u);
    }
  }

  lemma ChecksOfUpdate(s: State, taskId: Id, u: TaskUpdate, now: int)
    requires taskId in s.tasks && s.tasks[taskId].machineId in s.machines && !u.unsupported && u.status.Some?
    requires Verdict(s.machines[s.tasks[taskId].machineId], s.orders, OrdersOfTask(s.orders, taskId)).Ok?
    ensures UpdateTask(s, taskId, u, now).Ok?
            <==> && AsExpected(s, s.tasks[taskId], u)
                 && (u.status.value == s.tasks[taskId].status
                     || (Allowed(s.tasks[taskId].status, u.status.value)
                         && (u.status.value == TaskProducing ==> !OtherProducing(s.tasks, s.tasks[taskId]))))
  {
  }

  /** A request with an outdated view of the task is refused as such, and no other request is. */
  lemma OutdatedExactlyWhen(s: State, taskId: Id, u: TaskUpdate, now: int)
    requires Inv(s) && taskId in s.tasks && !u.unsupported && u.status.Some?
    ensures UpdateTask(s, taskId, u, now) == Err(Changed) <==> !ExpectationsMet(s, taskId, u)
  {
    ExpectationsAreMet(s, taskId, u);
    VerdictHolds(s, taskId);
  }

  /** A machine is called busy only when work is to start there while another task is in production. */
  lemma BusyIsTrue(s: State, taskId: Id, u: TaskUpdate, now: int)
    requires Inv(s) && taskId in s.tasks && UpdateTask(s, taskId, u, now) == Err(MachineBusy)
    ensures u.status == Some(TaskProducing) && s.tasks[taskId].status != TaskProducing && !MachineFree(s, taskId)
  {
    MachineIsFree(s, taskId);
  }

  function Asking(status: TaskStatus): TaskUpdate { TaskUpdate(Some(status), None, None, None, false) }

  /** The task's new row, and the status its orders have taken. */
  lemma UpdateResult(s: State, taskId: Id, status: TaskStatus, now: int)
    requires Inv(s) && UpdateTask(s, taskId, Asking(status), now).Ok? && status != s.tasks[taskId].status
    ensures var s' := UpdateTask(s, taskId, Asking(status), now).value;
            && Inv(s') && s'.machines == s.machines && s'.tasks.Keys == s.tasks.Keys
            && (forall u :: u in s.tasks && u != taskId ==> s'.tasks[u] == s.tasks[u])
            && s'.tasks[taskId].status == status && s'.tasks[taskId].machineId == s.tasks[taskId].machineId
            && (s.tasks[taskId].status != TaskDone ==> s'.tasks[taskId].position == s.tasks[taskId].position)
            && s'.orders == Linked(s.orders, OrdersOfTask(s.orders, taskId),
                                   if status == TaskDone then OrderDone else OrderProducing, Some(taskId), now)
  {
    UpdateTaskKeepsInv(s, taskId, Asking(status), now);
  }

  /** The orders of a waiting or producing task are producing, those of a finished one are done. */
  lemma OrdersFollow(s: State, taskId: Id, o: Id)
    requires StatusesAgree(s) && taskId in s.tasks && o in s.orders && s.orders[o].taskId == Some(taskId)
    ensures s.orders[o].status == if s.tasks[taskId].status == TaskDone then OrderDone else OrderProducing
  {
  }

  lemma LinkedAsBefore(s: State, taskId: Id, now: int)
    requires StatusesAgree(s) && taskId in s.tasks && s.tasks[taskId].status != TaskDone
    ensures Linked(s.orders, OrdersOfTask(s.orders, taskId), OrderProducing, Some(taskId), now) == s.orders
  {
    forall o | o in s.orders && o in OrdersOfTask(s.orders, taskId)
      ensures Stamped(s.orders[o], OrderProducing, Some(taskId), now) == s.orders[o]
    {
      OrdersFollow(s, taskId, o);
    }
  }

  /** A waiting task whose machine is free can be started and then finished; its orders are then done, and it has left the queue. */
  lemma StartThenFinish(s: State, taskId: Id, now: int, later: int)
    requires Inv(s) && taskId in s.tasks && s.tasks[taskId].status == TaskWaiting && MachineFree(s, taskId)
    ensures var started := UpdateTask(s, taskId, Asking(TaskProducing), now);
            && started.Ok?
            && var finished := UpdateTask(started.value, taskId, Asking(TaskDone), later);
               && finished.Ok? && Inv(finished.value)
               && finished.value.tasks[taskId].status == TaskDone
               && taskId !in Queue(finished.value.tasks, s.tasks[taskId].machineId)
               && forall o :: o in s.orders && s.orders[o].taskId == Some(taskId) ==> finished.value.orders[o].status == OrderDone
  {
    UpdateAcceptedExactlyWhen(s, taskId, Asking(TaskProducing), now);
    UpdateResult(s, taskId, TaskProducing, now);
    var s1 := UpdateTask(s, taskId, Asking(TaskProducing), now).value;
    UpdateAcceptedExactlyWhen(s1, taskId, Asking(TaskDone), later);
    UpdateResult(s1, taskId, TaskDone, later);
    FinishedOrders(s, s1, UpdateTask(s1, taskId, Asking(TaskDone), later).value, taskId, now, later);
  }

  lemma FinishedOrders(s: State, s1: State, s2: State, taskId: Id, now: int, later: int)
    requires s1.orders == Linked(s.orders, OrdersOfTask(s.orders, taskId), OrderProducing, Some(taskId), now)
    requires s2.orders == Linked(s1.orders, OrdersOfTask(s1.orders, taskId), OrderDone, Some(taskId), later)
    ensures forall o :: o in s.orders && s.orders[o].taskId == Some(taskId) ==> s2.orders[o].status == OrderDone
  {
  }

  /** Withdrawing a task that was just started restores the board but for the task's time stamp. */
  lemma WithdrawUndoesStart(s: State, taskId: Id, now: int, later: int)
    requires Inv(s) && taskId in s.tasks && s.tasks[taskId].status == TaskWaiting && MachineFree(s, taskId)
    ensures var started := UpdateTask(s, taskId, Asking(TaskProducing), now);
            && started.Ok?
            && var back := UpdateTask(started.value, taskId, Asking(TaskWaiting), later);
               && back.Ok? && back.value.orders == s.orders && back.value.machines == s.machines
               && back.value.tasks == s.tasks[taskId := s.tasks[taskId].(updatedAt := later)]
  {
    UpdateAcceptedExactlyWhen(s, taskId, Asking(TaskProducing), now);
    StatusOnly(s, taskId, TaskProducing, now);
    UpdateResult(s, taskId, TaskProducing, now);
    var s1 := UpdateTask(s, taskId, Asking(TaskProducing), now).value;
    UpdateAcceptedExactlyWhen(s1, taskId, Asking(TaskWaiting), later);
    StatusOnly(s1, taskId, TaskWaiting, later);
  }

  /** Between waiting and producing only the task's own row changes. */
  lemma StatusOnly(s: State, taskId: Id, status: TaskStatus, now: int)
    requires StatusesAgree(s) && taskId in s.tasks && s.tasks[taskId].status != TaskDone && s.tasks[taskId].status != status
    requires status != TaskDone && UpdateTask(s, taskId, Asking(status), now).Ok?
    ensures UpdateTask(s, taskId, Asking(status), now).value
            == s.(tasks := s.tasks[taskId := s.tasks[taskId].(status := status, updatedAt := now)])
  {
    LinkedAsBefore(s, taskId, now);
    UpdatedRow(s, taskId, status, now);
  }

  lemma UpdatedRow(s: State, taskId: Id, status: TaskStatus, now: int)
    requires taskId in s.tasks && s.tasks[taskId].status != TaskDone && s.tasks[taskId].status != status
    requires UpdateTask(s, taskId, Asking(status), now).Ok?
    ensures UpdateTask(s, taskId, Asking(status), now).value.tasks
            == s.tasks[taskId := s.tasks[taskId].(status := status, updatedAt := now)]
  {
  }

  /** Restoring a finished task whose machine is free undoes finishing, at the end of the queue. */
  lemma RestoreUndoesFinish(s: State, taskId: Id, now: int, later: int, machineId: Id)
    requires Inv(s) && taskId in s.tasks && s.tasks[taskId].status == TaskProducing
    ensures var finished := UpdateTask(s, taskId, Asking(TaskDone), now);
            && finished.Ok?
            && var back := UpdateTask(finished.value, taskId, Asking(TaskProducing), later);
               && back.Ok? && Inv(back.value)
               && back.value.tasks[taskId].status == TaskProducing
               && (forall u :: u in s.tasks && u != taskId ==> back.value.tasks[u] == s.tasks[u])
               && (forall o :: o in s.orders ==> SameButStamp(back.value.orders[o], s.orders[o]))
               && Queue(back.value.tasks, machineId)
                  == if machineId == s.tasks[taskId].machineId then Remove(Queue(s.tasks, machineId), taskId) + [taskId]
                     else Queue(s.tasks, machineId)
  {
    UpdateAcceptedExactlyWhen(s, taskId, Asking(TaskDone), now);
    UpdateResult(s, taskId, TaskDone, now);
    var s1 := UpdateTask(s, taskId, Asking(TaskDone), now).value;
    ProducerAlone(s, taskId);
    UpdateAcceptedExactlyWhen(s1, taskId, Asking(TaskProducing), later);
    UpdateResult(s1, taskId, TaskProducing, later);
    RestoredOrders(s, s1, UpdateTask(s1, taskId, Asking(TaskProducing), later).value, taskId, now, later);
    UpdateTaskQueues(s, taskId, Asking(TaskDone), now, machineId);
    UpdateTaskQueues(s1, taskId, Asking(TaskProducing), later, machineId);
  }

  lemma ProducerAlone(s: State, taskId: Id)
    requires OneProducing(s.tasks) && taskId in s.tasks && s.tasks[taskId].status == TaskProducing
    ensures MachineFree(s, taskId)
  {
    forall u | u in s.tasks && u != taskId && s.tasks[u].machineId == s.tasks[taskId].machineId
      ensures s.tasks[u].status != TaskProducing
    {
      if s.tasks[u].status == TaskProducing {
        assert Contenders(s.tasks, taskId, u);
      }
    }
  }

  lemma RestoredOrders(s: State, s1: State, s2: State, taskId: Id, now: int, later: int)
    requires StatusesAgree(s) && taskId in s.tasks && s.tasks[taskId].status == TaskProducing
    requires s1.orders == Linked(s.orders, OrdersOfTask(s.orders, taskId), OrderDone, Some(taskId), now)
    requires s2.orders == Linked(s1.orders, OrdersOfTask(s1.orders, taskId), OrderProducing, Some(taskId), later)
    ensures forall o :: o in s.orders ==> SameButStamp(s2.orders[o], s.orders[o])
  {
  }

  // ----- tasks -----

  predicate Pending(o: Order) { o.status == OrderPending && o.taskId == None }

  /** A task is made exactly of distinct pending orders that the rules let the machine produce together. */
  lemma CreateAcceptedExactlyWhen(s: State, machineId: Option<Id>, orderIds: seq<Id>, newId: Id, now: int)
    ensures CreateTask(s, machineId, orderIds, newId, now).Ok?
            <==> && machineId.Some? && machineId.value in s.machines && orderIds != [] && NoDuplicates(orderIds)
                 && (forall o :: o in orderIds ==> o in s.orders && Pending(s.orders[o]))
                 && ValidateBatch(s.machines[machineId.value], Rows(s.orders, orderIds)).Ok?
  {
  }

  /** The new task waits on its machine, and exactly the orders named have joined it. */
  lemma CreatedTask(s: State, machineId: Option<Id>, orderIds: seq<Id>, newId: Id, now: int)
    requires CreateTask(s, machineId, orderIds, newId, now).Ok?
    ensures var s' := CreateTask(s, machineId, orderIds, newId, now).value;
            && newId in s'.tasks && s'.tasks[newId].machineId == machineId.value && s'.tasks[newId].status == TaskWaiting
            && forall o :: o in s.orders ==>
                 s'.orders[o] == if o in orderIds
                                 then s.orders[o].(status := OrderProducing, taskId := Some(newId), updatedAt := now)
                                 else s.orders[o]
  {
  }

  /** A task is deleted exactly while it is waiting; its orders are then pending again. */
  lemma DeleteAcceptedExactlyWhen(s: State, taskId: Id, now: int)
    requires RowsKeyed(s)
    ensures DeleteTask(s, taskId, now).Ok? <==> taskId in s.tasks && s.tasks[taskId].status == TaskWaiting
    ensures DeleteTask(s, taskId, now).Ok? ==>
              var s' := DeleteTask(s, taskId, now).value;
              && s'.tasks.Keys == s.tasks.Keys - {taskId}
              && forall o :: o in s.orders ==>
                   s'.orders[o] == if s.orders[o].taskId == Some(taskId)
                                   then s.orders[o].(status := OrderPending, taskId := None, updatedAt := now) else s.orders[o]
  {
  }

  /** The rules let the machine produce the orders together. */
  predicate Accepts(s: State, machineId: Id, ids: set<Id>)
    requires machineId in s.machines && ids <= s.orders.Keys
  {
    Verdict(s.machines[machineId], s.orders, ids).Ok?
  }

  /** A task moves exactly while it is waiting, to a machine that may produce its orders together. */
  lemma MoveTaskAcceptedExactlyWhen(s: State, taskId: Id, machineId: Id, index: nat, now: int)
    requires RowsKeyed(s)
    ensures MoveTask(s, taskId, machineId, index, now).Ok?
            <==> && taskId in s.tasks && machineId in s.machines && s.tasks[taskId].status == TaskWaiting
                 && Accepts(s, machineId, OrdersOfTask(s.orders, taskId))
  {
  }

  // ----- moving one order -----

  /** The order may leave its place: it is pending, or its task is waiting and what remains there may still run. */
  ghost predicate MayLeave(s: State, orderId: Id, source: Option<Id>)
    requires RowsKeyed(s) && orderId in s.orders
  {
    match source
    case None => Pending(s.orders[orderId])
    case Some(t) =>
      && t in s.tasks && s.tasks[t].status == TaskWaiting && s.orders[orderId].taskId == Some(t)
      && var rest := OrdersOfTask(s.orders, t) - {orderId};
         rest == {} || Accepts(s, s.tasks[t].machineId, rest)
  }

  /** The order may arrive: in a waiting task that it may join, on a machine that may produce it alone, or among the pending ones. */
  ghost predicate MayArrive(s: State, orderId: Id, task: Option<Id>, machine: Option<Id>)
    requires RowsKeyed(s) && orderId in s.orders
  {
    && (task.Some? ==>
          && task.value in s.tasks && s.tasks[task.value].status == TaskWaiting
          && Accepts(s, s.tasks[task.value].machineId, OrdersOfTask(s.orders, task.value) + {orderId}))
    && (machine.Some? ==> machine.value in s.machines && Accepts(s, machine.value, {orderId}))
  }

  lemma LeavesItsTask(s: State, orderId: Id, source: Option<Id>)
    requires RowsKeyed(s) && orderId in s.orders && (source.Some? ==> source.value in s.tasks)
    ensures LeaveError(s, orderId, source).None?
            <==> match source
                 case None => Pending(s.orders[orderId])
                 case Some(t) => s.tasks[t].status == TaskWaiting && s.orders[orderId].taskId == Some(t)
  {
  }

  /** The batch left behind may still run. */
  predicate RestRuns(s: State, orderId: Id, source: Option<Id>)
    requires source.Some? ==> source.value in s.tasks && s.tasks[source.value].machineId in s.machines
  {
    source.Some? ==>
      var rest := OrdersOfTask(s.orders, source.value) - {orderId};
      rest == {} || Accepts(s, s.tasks[source.value].machineId, rest)
  }

  lemma JoinsTask(s: State, orderId: Id, source: Option<Id>, t: Id)
    requires RowsKeyed(s) && orderId in s.orders && (source.Some? ==> source.value in s.tasks) && t in s.tasks
    ensures BatchError(s, orderId, source, ToTask(t)).None?
            <==> && s.tasks[t].status == TaskWaiting && Accepts(s, s.tasks[t].machineId, OrdersOfTask(s.orders, t) + {orderId})
                 && RestRuns(s, orderId, source)
  {
  }

  lemma JoinsNoTask(s: State, orderId: Id, source: Option<Id>, machine: Option<Id>)
    requires RowsKeyed(s) && orderId in s.orders && (source.Some? ==> source.value in s.tasks)
    requires machine.Some? ==> machine.value in s.machines
    ensures BatchError(s, orderId, source, if machine.Some? then ToMachine(machine.value) else ToPending).None?
            <==> (machine.Some? ==> Accepts(s, machine.value, {orderId})) && RestRuns(s, orderId, source)
  {
  }

  lemma LeaveAndBatch(s: State, orderId: Id, source: Option<Id>, task: Option<Id>, machine: Option<Id>)
    requires RowsKeyed(s) && orderId in s.orders && (task.None? || machine.None?)
    requires (source.Some? ==> source.value in s.tasks) && (task.Some? ==> task.value in s.tasks)
    requires machine.Some? ==> machine.value in s.machines
    ensures var target := if task.Some? then ToTask(task.value) else if machine.Some? then ToMachine(machine.value) else ToPending;
            LeaveError(s, orderId, source).None? && BatchError(s, orderId, source, target).None?
            <==> MayLeave(s, orderId, source) && MayArrive(s, orderId, task, machine)
  {
    LeavesItsTask(s, orderId, source);
    if task.Some? {
      JoinsTask(s, orderId, source, task.value);
    } else {
      JoinsNoTask(s, orderId, source, machine);
    }
  }

  /** A move is accepted exactly when it names one place at most and the order may leave and arrive, or it stays where it is. */
  lemma MoveOrderAcceptedExactlyWhen(s: State, orderId: Id, source: Option<Id>, task: Option<Id>, machine: Option<Id>, newId: Id, now: int)
    requires RowsKeyed(s)
    ensures MoveOrder(s, orderId, source, task, machine, newId, now).Ok?
            <==> && (task.None? || machine.None?)
                 && (|| (source.Some? && source == task)
                     || (orderId in s.orders && MayLeave(s, orderId, source) && MayArrive(s, orderId, task, machine)))
  {
    if && (task.None? || machine.None?) && orderId in s.orders && (source.Some? ==> source.value in s.tasks)
       && (task.Some? ==> task.value in s.tasks) && (machine.Some? ==> machine.value in s.machines)
    {
      LeaveAndBatch(s, orderId, source, task, machine);
    }
  }

  /** Where the order is after a move: in the named task, in a new waiting task of the machine, or pending. */
  lemma MovedOrderIsThere(s: State, orderId: Id, source: Option<Id>, task: Option<Id>, machine: Option<Id>, newId: Id, now: int)
    requires RowsKeyed(s) && MoveOrder(s, orderId, source, task, machine, newId, now).Ok?
    requires !(source.Some? && source == task)
    ensures var s' := MoveOrder(s, orderId, source, task, machine, newId, now).value;
            && orderId in s'.orders && s'.orders.Keys == s.orders.Keys
            && s'.orders[orderId].taskId == (if task.Some? then task else if machine.Some? then Some(newId) else None)
            && s'.orders[orderId].status == (if task.Some? || machine.Some? then OrderProducing else OrderPending)
            && forall o :: o in s.orders && o != orderId ==> s'.orders[o] == s.orders[o]
  {
  }

  // ----- orders -----

  /** An order changes exactly while it is in no task, and its status can only be set to pending. */
  lemma EditAcceptedExactlyWhen(s: State, orderId: Id, content: Option<Content>, status: Option<OrderStatus>, now: int)
    ensures UpdateOrder(s, orderId, content, status, now).Ok?
            <==> && orderId in s.orders
                 && (content.Some? || status.Some? ==> s.orders[orderId].taskId == None)
                 && (status == None || status == Some(OrderPending))
    ensures UpdateOrder(s, orderId, content, status, now).Ok? && content.Some? ==>
              UpdateOrder(s, orderId, content, status, now).value.orders[orderId].content == content.value
    ensures UpdateOrder(s, orderId, content, status, now).Ok? ==>
              var s' := UpdateOrder(s, orderId, content, status, now).value;
              && s'.tasks == s.tasks && s'.machines == s.machines && s'.orders.Keys == s.orders.Keys
              && s'.orders[orderId].(content := s.orders[orderId].content, updatedAt := s.orders[orderId].updatedAt)
                 == (if status.Some? then s.orders[orderId].(status := OrderPending) else s.orders[orderId])
              && forall o :: o in s.orders && o != orderId ==> s'.orders[o] == s.orders[o]
  {
  }

  /** An order is deleted exactly while it is in no task, and nothing else changes. */
  lemma DeleteOrderAcceptedExactlyWhen(s: State, orderId: Id)
    ensures DeleteOrder(s, orderId).Ok? <==> orderId in s.orders && s.orders[orderId].taskId == None
    ensures DeleteOrder(s, orderId).Ok? ==>
              var s' := DeleteOrder(s, orderId).value;
              && s'.tasks == s.tasks && s'.machines == s.machines && s'.orders.Keys == s.orders.Keys - {orderId}
              && forall o :: o in s'.orders ==> s'.orders[o] == s.orders[o]
  {
  }

  /** A new order is pending, asks for what it was given, and can be deleted again without a trace. */
  lemma DeleteUndoesCreateOrder(s: State, newId: Id, content: Content, now: int)
    requires newId !in s.orders
    ensures var s' := CreateOrder(s, newId, content, now);
            && newId in s'.orders && s'.orders[newId] == Order(newId, content, OrderPending, None, now, now)
            && DeleteOrder(s', newId) == Ok(s)
  {
    var s' := CreateOrder(s, newId, content, now);
    assert s'.orders - {newId} == s.orders;
  }
}
