/** Every board and order operation keeps the board's invariant. */
module BoardSafety {
  import opened Sequences
  import opened Records
  import opened ProductionRules
  import opened Tables
  import opened Queues
  import opened Board
  import opened BoardFrames

  // ----- tasks -----

  /** A new waiting task behind a machine's queue, holding unlinked orders that the machine accepts together. */
  lemma AddingTaskKeepsInv(s: State, s': State, t: Task, ids: set<Id>, now: int)
    requires Inv(s) && t.id !in s.tasks && t.status == TaskWaiting && t.machineId in s.machines
    requires t.position >= 1 && forall u :: u in Active(s.tasks, t.machineId) ==> s.tasks[u].position < t.position
    requires ids <= s.orders.Keys && forall o :: o in ids ==> Unlinked(s.orders[o])
    requires Verdict(s.machines[t.machineId], s.orders, ids).Ok?
    requires s' == s.(tasks := s.tasks[t.id := t], orders := Linked(s.orders, ids, OrderProducing, Some(t.id), now))
    ensures Inv(s')
  {
    RowsAfterLinking(s, s', ids, OrderProducing, Some(t.id), now);
    StatusesAfterLinking(s, s', ids, OrderProducing, Some(t.id), now);
    AddedTaskFits(s.tasks, t);
    AddingTaskKeepsBatches(s, s', t, ids, now);
  }

  lemma AddingTaskKeepsBatches(s: State, s': State, t: Task, ids: set<Id>, now: int)
    requires BatchesValid(s) && StatusesAgree(s) && t.id !in s.tasks && t.machineId in s.machines
    requires ids <= s.orders.Keys && forall o :: o in ids ==> Unlinked(s.orders[o])
    requires Verdict(s.machines[t.machineId], s.orders, ids).Ok?
    requires s' == s.(tasks := s.tasks[t.id := t], orders := Linked(s.orders, ids, OrderProducing, Some(t.id), now))
    ensures BatchesValid(s')
  {
    LinkingKeepsContents(s.orders, ids, OrderProducing, Some(t.id), now);
    OrdersAfterLinking(s.orders, ids, OrderProducing, Some(t.id), now, t.id);
    NoOrdersYet(s, t.id);
    BatchAccepted(s, s', t.id, ids);
    forall u | u in s'.tasks && u !in {t.id}
      ensures Untouched(s, s', u)
    {
      OrdersAfterLinking(s.orders, ids, OrderProducing, Some(t.id), now, u);
      UnlinkedElsewhere(s.orders, ids, u);
    }
    BatchesFrame(s, s', {t.id});
  }

  lemma NoOrdersYet(s: State, t: Id)
    requires StatusesAgree(s) && t !in s.tasks
    ensures OrdersOfTask(s.orders, t) == {}
  {
  }

  lemma UnlinkedElsewhere(orders: Orders, ids: set<Id>, t: Id)
    requires ids <= orders.Keys && forall o :: o in ids ==> Unlinked(orders[o])
    ensures OrdersOfTask(orders, t) - ids == OrdersOfTask(orders, t)
  {
  }

  lemma CreateTaskKeepsInv(s: State, machineId: Option<Id>, orderIds: seq<Id>, newId: Id, now: int)
    requires Inv(s) && newId !in s.tasks && CreateTask(s, machineId, orderIds, newId, now).Ok?
    ensures Inv(CreateTask(s, machineId, orderIds, newId, now).value)
  {
    VerdictOfListing(s.machines[machineId.value], s.orders, orderIds);
    NextPositionPositive(s.tasks, machineId.value);
    AddingTaskKeepsInv(s, CreateTask(s, machineId, orderIds, newId, now).value,
                       NewTask(s.tasks, newId, machineId.value, now), SetOf(orderIds), now);
  }

  /** A task's new status, with its orders following. */
  lemma ChangingTaskKeepsInv(s: State, s': State, t: Task, now: int)
    requires Inv(s) && t.id in s.tasks && t.machineId == s.tasks[t.id].machineId
    requires t.status == TaskProducing ==> !OtherProducing(s.tasks, t)
    requires t.position >= 1
    requires if s.tasks[t.id].status == TaskDone
             then forall u :: u in Active(s.tasks, t.machineId) ==> s.tasks[u].position < t.position
             else t.position == s.tasks[t.id].position
    requires s' == s.(tasks := s.tasks[t.id := t],
                      orders := Linked(s.orders, OrdersOfTask(s.orders, t.id),
                                       if t.status == TaskDone then OrderDone else OrderProducing, Some(t.id), now))
    ensures Inv(s')
  {
    var ids, status := OrdersOfTask(s.orders, t.id), if t.status == TaskDone then OrderDone else OrderProducing;
    assert s.tasks[t.id].machineId in s.machines;
    RowsAfterLinking(s, s', ids, status, Some(t.id), now);
    StatusesAfterLinking(s, s', ids, status, Some(t.id), now);
    ChangedTaskFits(s.tasks, t);
    ChangedTaskProduces(s.tasks, t);
    LinkingKeepsContents(s.orders, ids, status, Some(t.id), now);
    forall u | u in s'.tasks && u !in {}
      ensures Untouched(s, s', u)
    {
      OrdersAfterLinking(s.orders, ids, status, Some(t.id), now, u);
      OrdersHeldOnce(s.orders, t.id, u);
    }
    BatchesFrame(s, s', {});
  }

  lemma OrdersHeldOnce(orders: Orders, t: Id, u: Id)
    ensures t != u ==> OrdersOfTask(orders, u) - OrdersOfTask(orders, t) == OrdersOfTask(orders, u)
  {
  }

  lemma UpdateTaskKeepsInv(s: State, taskId: Id, u: TaskUpdate, now: int)
    requires Inv(s) && UpdateTask(s, taskId, u, now).Ok?
    ensures Inv(UpdateTask(s, taskId, u, now).value)
  {
    var s' := UpdateTask(s, taskId, u, now).value;
    if s' != s {
      NextPositionPositive(s.tasks, s.tasks[taskId].machineId);
      ChangingTaskKeepsInv(s, s', s'.tasks[taskId], now);
    }
  }

  /** A task taken off the board, its orders back among the pending ones. */
  lemma RemovingTaskKeepsInv(s: State, s': State, taskId: Id, now: int)
    requires Inv(s) && taskId in s.tasks
    requires s' == s.(orders := Linked(s.orders, OrdersOfTask(s.orders, taskId), OrderPending, None, now),
                      tasks := s.tasks - {taskId})
    ensures Inv(s')
  {
    var ids := OrdersOfTask(s.orders, taskId);
    RowsAfterLinking(s, s', ids, OrderPending, None, now);
    StatusesAfterLinking(s, s', ids, OrderPending, None, now);
    FewerTasks(s.tasks, s'.tasks);
    LinkingKeepsContents(s.orders, ids, OrderPending, None, now);
    forall u | u in s'.tasks && u !in {}
      ensures Untouched(s, s', u)
    {
      OrdersAfterLinking(s.orders, ids, OrderPending, None, now, u);
      OrdersHeldOnce(s.orders, taskId, u);
    }
    BatchesFrame(s, s', {});
  }

  lemma DeleteTaskKeepsInv(s: State, taskId: Id, now: int)
    requires Inv(s) && DeleteTask(s, taskId, now).Ok?
    ensures Inv(DeleteTask(s, taskId, now).value)
    ensures Contiguous(DeleteTask(s, taskId, now).value.tasks, s.tasks[taskId].machineId)
  {
    var mid := s.(orders := Linked(s.orders, OrdersOfTask(s.orders, taskId), OrderPending, None, now),
                  tasks := s.tasks - {taskId});
    RemovingTaskKeepsInv(s, mid, taskId, now);
    InvAfterNormalise(mid, s.tasks[taskId].machineId, now);
  }

  // ----- moving orders and tasks -----

  function Destination(target: Target, newId: Id): Option<Id> {
    match target
    case ToTask(t) => Some(t)
    case ToMachine(_) => Some(newId)
    case ToPending => None
  }

  function StatusAt(dest: Option<Id>): OrderStatus { if dest.Some? then OrderProducing else OrderPending }

  /** One order leaves a waiting task, or the pending ones, for another waiting task, or for the pending ones. */
  ghost predicate OneOrderMoves(s: State, s': State, orderId: Id, source: Option<Id>, dest: Option<Id>, now: int) {
    && s'.machines == s.machines && orderId in s.orders && s.orders[orderId].taskId == source && source != dest
    && s'.orders == Linked(s.orders, {orderId}, StatusAt(dest), dest, now)
    && (dest.Some? ==> dest.value in s'.tasks && s'.tasks[dest.value].status == TaskWaiting)
    && (forall t :: t in s'.tasks && Some(t) != dest ==> t in s.tasks)
    && (forall t :: t in s'.tasks && t in s.tasks ==> s'.tasks[t] == s.tasks[t])
    && (forall t :: t in s.tasks && t !in s'.tasks ==> Some(t) == source && OrdersOfTask(s.orders, t) == {orderId})
  }

  predicate Accepted(s: State, machineId: Id, ids: set<Id>) {
    machineId in s.machines && ids <= s.orders.Keys && Verdict(s.machines[machineId], s.orders, ids).Ok?
  }

  lemma MovingKeepsRows(s: State, s': State, orderId: Id, source: Option<Id>, dest: Option<Id>, now: int)
    requires RowsKeyed(s) && StatusesAgree(s) && OneOrderMoves(s, s', orderId, source, dest, now)
    requires dest.Some? ==> s'.tasks[dest.value].id == dest.value && s'.tasks[dest.value].machineId in s.machines
    ensures RowsKeyed(s') && StatusesAgree(s')
  {
    RowsAfterLinking(s, s', {orderId}, StatusAt(dest), dest, now);
    forall o | o in s.orders && o !in {orderId} && s.orders[o].taskId.Some?
      ensures var t := s.orders[o].taskId.value; t in s.tasks && t in s'.tasks && s'.tasks[t] == s.tasks[t]
    {
      var t := s.orders[o].taskId.value;
      assert o in OrdersOfTask(s.orders, t);
    }
    StatusesAfterLinking(s, s', {orderId}, StatusAt(dest), dest, now);
  }

  lemma MovingKeepsBatches(s: State, s': State, orderId: Id, source: Option<Id>, dest: Option<Id>, now: int)
    requires BatchesValid(s) && OneOrderMoves(s, s', orderId, source, dest, now)
    requires dest.Some? ==>
               Accepted(s, s'.tasks[dest.value].machineId, OrdersOfTask(s.orders, dest.value) + {orderId})
    requires source.Some? && source.value in s'.tasks ==>
               Accepted(s, s'.tasks[source.value].machineId, OrdersOfTask(s.orders, source.value) - {orderId})
    ensures BatchesValid(s')
  {
    var touched := (if source.Some? then {source.value} else {}) + (if dest.Some? then {dest.value} else {});
    LinkingKeepsContents(s.orders, {orderId}, StatusAt(dest), dest, now);
    forall t | t in s'.tasks && t !in touched
      ensures Untouched(s, s', t)
    {
      OrdersAfterLinking(s.orders, {orderId}, StatusAt(dest), dest, now, t);
      HeldElsewhere(s.orders, orderId, source, t);
    }
    forall t | t in s'.tasks && t in touched
      ensures BatchValid(s', t)
    {
      MovedBatch(s, s', orderId, source, dest, now, t);
    }
    BatchesFrame(s, s', touched);
  }

  /** The task joined and the one left hold the sets that were checked. */
  lemma MovedBatch(s: State, s': State, orderId: Id, source: Option<Id>, dest: Option<Id>, now: int, t: Id)
    requires s'.machines == s.machines && ContentsKept(s.orders, s'.orders) && orderId in s.orders && source != dest
    requires s'.orders == Linked(s.orders, {orderId}, StatusAt(dest), dest, now)
    requires t in s'.tasks && (Some(t) == source || Some(t) == dest)
    requires Accepted(s, s'.tasks[t].machineId,
                      if Some(t) == dest then OrdersOfTask(s.orders, t) + {orderId} else OrdersOfTask(s.orders, t) - {orderId})
    ensures BatchValid(s', t)
  {
    OrdersAfterLinking(s.orders, {orderId}, StatusAt(dest), dest, now, t);
    var ids := if Some(t) == dest then OrdersOfTask(s.orders, t) + {orderId} else OrdersOfTask(s.orders, t) - {orderId};
    BatchAccepted(s, s', t, ids);
  }

  lemma HeldElsewhere(orders: Orders, orderId: Id, source: Option<Id>, t: Id)
    requires orderId in orders && orders[orderId].taskId == source && source != Some(t)
    ensures OrdersOfTask(orders, t) - {orderId} == OrdersOfTask(orders, t)
  {
  }

  /** What the checks have established when an order moves, apart from the batches. */
  ghost predicate MoveAllowed(s: State, orderId: Id, source: Option<Id>, target: Target, newId: Id) {
    && newId !in s.tasks && orderId in s.orders
    && (source.Some? ==> source.value in s.tasks && s.tasks[source.value].machineId in s.machines)
    && (target.ToTask? ==>
          && target.taskId in s.tasks && s.tasks[target.taskId].machineId in s.machines
          && source != Some(target.taskId) && s.tasks[target.taskId].status == TaskWaiting)
    && (target.ToMachine? ==> target.machineId in s.machines)
    && LeaveError(s, orderId, source).None?
  }

  ghost predicate MoveChecked(s: State, orderId: Id, source: Option<Id>, target: Target, newId: Id) {
    MoveAllowed(s, orderId, source, target, newId) && BatchError(s, orderId, source, target).None?
  }

  lemma MoveIsOneOrder(s: State, orderId: Id, source: Option<Id>, target: Target, newId: Id, now: int)
    requires MoveAllowed(s, orderId, source, target, newId) && (source.Some? || !target.ToPending?)
    ensures OneOrderMoves(s, Moved(s, orderId, source, target, newId, now), orderId, source,
                          Destination(target, newId), now)
  {
    assert s.orders[orderId].taskId == source;
    MovedTasks(s, orderId, source, target, newId, now);
    if source.Some? {
      assert orderId in OrdersOfTask(s.orders, source.value);
    }
  }

  /** The rows that come and go when an order moves. */
  lemma MovedTasks(s: State, orderId: Id, source: Option<Id>, target: Target, newId: Id, now: int)
    requires newId !in s.tasks && (target.ToTask? ==> target.taskId in s.tasks && source != Some(target.taskId))
    requires source.Some? ==> source.value in s.tasks
    ensures var s', dest := Moved(s, orderId, source, target, newId, now), Destination(target, newId);
            && (dest.Some? ==> dest.value in s'.tasks)
            && (target.ToMachine? ==> s'.tasks[newId].status == TaskWaiting)
            && (forall t :: t in s'.tasks && Some(t) != dest ==> t in s.tasks)
            && (forall t :: t in s'.tasks && t in s.tasks ==> s'.tasks[t] == s.tasks[t])
            && (forall t :: t in s.tasks && t !in s'.tasks ==> Some(t) == source && OrdersOfTask(s.orders, t) <= {orderId})
  {
  }

  lemma MoveIsAccepted(s: State, orderId: Id, source: Option<Id>, target: Target, newId: Id, now: int)
    requires MoveChecked(s, orderId, source, target, newId)
    requires StatusesAgree(s)
    ensures target.ToTask? ==>
              Accepted(s, s.tasks[target.taskId].machineId, OrdersOfTask(s.orders, target.taskId) + {orderId})
    ensures target.ToMachine? ==> Accepted(s, target.machineId, OrdersOfTask(s.orders, newId) + {orderId})
    ensures source.Some? && !(OrdersOfTask(s.orders, source.value) <= {orderId}) ==>
              Accepted(s, s.tasks[source.value].machineId, OrdersOfTask(s.orders, source.value) - {orderId})
  {
    if target.ToMachine? {
      NoOrdersYet(s, newId);
      assert OrdersOfTask(s.orders, newId) + {orderId} == {orderId};
    }
  }

  lemma MovingKeepsCore(s: State, orderId: Id, source: Option<Id>, target: Target, newId: Id, now: int)
    requires RowsKeyed(s) && StatusesAgree(s) && BatchesValid(s)
    requires MoveChecked(s, orderId, source, target, newId)
    ensures var s' := Moved(s, orderId, source, target, newId, now);
            RowsKeyed(s') && StatusesAgree(s') && BatchesValid(s')
  {
    var s', dest := Moved(s, orderId, source, target, newId, now), Destination(target, newId);
    if source.None? && target.ToPending? {
      NothingMoves(s, orderId, now);
    } else {
      MoveIsOneOrder(s, orderId, source, target, newId, now);
      MoveIsAccepted(s, orderId, source, target, newId, now);
      MovingKeepsRows(s, s', orderId, source, dest, now);
      MovingKeepsBatches(s, s', orderId, source, dest, now);
    }
  }

  lemma MovingKeepsQueues(s: State, orderId: Id, source: Option<Id>, target: Target, newId: Id, now: int)
    requires PositionsDistinct(s.tasks) && OneProducing(s.tasks) && newId !in s.tasks
    ensures var s' := Moved(s, orderId, source, target, newId, now);
            PositionsDistinct(s'.tasks) && OneProducing(s'.tasks)
  {
    var s' := Moved(s, orderId, source, target, newId, now);
    if target.ToMachine? {
      var t := NewTask(s.tasks, newId, target.machineId, now);
      NextPositionPositive(s.tasks, target.machineId);
      AddedTaskFits(s.tasks, t);
      FewerTasks(s.tasks[newId := t], s'.tasks);
    } else {
      FewerTasks(s.tasks, s'.tasks);
    }
  }

  lemma MovingKeepsInv(s: State, orderId: Id, source: Option<Id>, target: Target, newId: Id, now: int)
    requires Inv(s) && MoveChecked(s, orderId, source, target, newId)
    ensures Inv(Moved(s, orderId, source, target, newId, now))
  {
    MovingKeepsCore(s, orderId, source, target, newId, now);
    MovingKeepsQueues(s, orderId, source, target, newId, now);
  }

  /** From the pending orders to the pending orders. */
  lemma NothingMoves(s: State, orderId: Id, now: int)
    requires orderId in s.orders && Unlinked(s.orders[orderId])
    ensures s.(orders := Linked(s.orders, {orderId}, OrderPending, None, now)) == s
  {
  }

  lemma MoveOrderKeepsInv(s: State, orderId: Id, source: Option<Id>, targetTask: Option<Id>, targetMachine: Option<Id>,
                          newId: Id, now: int)
    requires Inv(s) && newId !in s.tasks
    requires MoveOrder(s, orderId, source, targetTask, targetMachine, newId, now).Ok?
    ensures Inv(MoveOrder(s, orderId, source, targetTask, targetMachine, newId, now).value)
  {
    if !(source.Some? && source == targetTask) {
      var target := if targetTask.Some? then ToTask(targetTask.value)
                    else if targetMachine.Some? then ToMachine(targetMachine.value) else ToPending;
      var moved := Moved(s, orderId, source, target, newId, now);
      assert MoveChecked(s, orderId, source, target, newId);
      MovingKeepsInv(s, orderId, source, target, newId, now);
      InvAfterTidying(moved, if source.Some? then Some(s.tasks[source.value].machineId) else None,
                      if target.ToMachine? then Some(target.machineId) else None, now);
    }
  }

  lemma InvAfterTidying(s: State, first: Option<Id>, second: Option<Id>, now: int)
    requires Inv(s)
    ensures Inv(s.(tasks := Tidied(s.tasks, first, second, now)))
  {
    var once := if first.Some? then Normalised(s.tasks, first.value, now) else s.tasks;
    if first.Some? {
      InvAfterNormalise(s, first.value, now);
    }
    assert Inv(s.(tasks := once));
    if second.Some? && second != first {
      InvAfterNormalise(s.(tasks := once), second.value, now);
    }
  }

  lemma MoveTaskKeepsInv(s: State, taskId: Id, machineId: Id, index: nat, now: int)
    requires Inv(s) && MoveTask(s, taskId, machineId, index, now).Ok?
    ensures Inv(MoveTask(s, taskId, machineId, index, now).value)
  {
    var t := s.tasks[taskId];
    if machineId == t.machineId {
      PlacedWithinQueue(s.tasks, taskId, index);
      InvAfterRenumber(s, machineId, InsertAt(Remove(Queue(s.tasks, machineId), taskId), index, taskId), now);
    } else {
      RehomedKeepsInv(s, taskId, machineId, index, now);
    }
  }

  /** Taking a waiting task out of its queue and putting it back lists the same tasks. */
  lemma PlacedWithinQueue(tasks: Tasks, taskId: Id, index: nat)
    requires taskId in tasks && Unfinished(tasks[taskId])
    ensures var q := InsertAt(Remove(Queue(tasks, tasks[taskId].machineId), taskId), index, taskId);
            NoDuplicates(q) && forall x :: x in q <==> x in Active(tasks, tasks[taskId].machineId)
  {
    var queue := Queue(tasks, tasks[taskId].machineId);
    RemoveMembers(queue, taskId);
    RemoveInOrder(tasks, queue, taskId);
    InOrderNoDuplicates(tasks, Remove(queue, taskId));
    InsertMembers(Remove(queue, taskId), index, taskId);
  }

  /** A task sent to the back room of another machine, before its position there is settled. */
  function Rehomed(tasks: Tasks, taskId: Id, machineId: Id, now: int): Tasks
    requires taskId in tasks
  {
    tasks[taskId := tasks[taskId].(machineId := machineId, updatedAt := now)]
  }

  lemma RehomedQueues(tasks: Tasks, taskId: Id, machineId: Id, index: nat, now: int)
    requires taskId in tasks && Unfinished(tasks[taskId]) && tasks[taskId].machineId != machineId
    ensures var without := Remove(Queue(tasks, tasks[taskId].machineId), taskId);
            var into := InsertAt(Queue(tasks, machineId), index, taskId);
            var mid := Rehomed(tasks, taskId, machineId, now);
            && NoDuplicates(without) && (forall x :: x in without <==> x in Active(mid, tasks[taskId].machineId))
            && NoDuplicates(into) && (forall x :: x in into <==> x in Active(mid, machineId))
  {
    var from, into := Queue(tasks, tasks[taskId].machineId), Queue(tasks, machineId);
    RemoveMembers(from, taskId);
    RemoveInOrder(tasks, from, taskId);
    InOrderNoDuplicates(tasks, Remove(from, taskId));
    InOrderNoDuplicates(tasks, into);
    InsertMembers(into, index, taskId);
  }

  lemma RehomedKeepsInv(s: State, taskId: Id, machineId: Id, index: nat, now: int)
    requires Inv(s) && taskId in s.tasks && s.tasks[taskId].status == TaskWaiting
    requires s.tasks[taskId].machineId != machineId
    requires Accepted(s, machineId, OrdersOfTask(s.orders, taskId))
    ensures Inv(s.(tasks := Relocated(s.tasks, taskId, machineId, index, now)))
  {
    var from := s.tasks[taskId].machineId;
    var mid := s.(tasks := Rehomed(s.tasks, taskId, machineId, now));
    var without, into := Remove(Queue(s.tasks, from), taskId), InsertAt(Queue(s.tasks, machineId), index, taskId);
    RehomedQueues(s.tasks, taskId, machineId, index, now);
    RehomedKeepsCore(s, taskId, machineId, now);
    RehomedPositions(s.tasks, taskId, machineId, now);
    RenumberPositions(mid.tasks, from, without, Some(machineId), now);
    RenumberKeepsSlots(mid.tasks, without, now);
    CoreFromSlots(mid, Renumber(mid.tasks, without, now));
    InvAfterRenumber(mid.(tasks := Renumber(mid.tasks, without, now)), machineId, into, now);
  }

  lemma RehomedKeepsCore(s: State, taskId: Id, machineId: Id, now: int)
    requires CoreInv(s) && taskId in s.tasks && s.tasks[taskId].status == TaskWaiting
    requires Accepted(s, machineId, OrdersOfTask(s.orders, taskId))
    ensures CoreInv(s.(tasks := Rehomed(s.tasks, taskId, machineId, now)))
  {
    var s' := s.(tasks := Rehomed(s.tasks, taskId, machineId, now));
    RehomedRows(s, taskId, machineId, now);
    RehomedProducing(s.tasks, taskId, machineId, now);
    BatchAccepted(s, s', taskId, OrdersOfTask(s.orders, taskId));
    BatchesFrame(s, s', {taskId});
  }

  lemma RehomedRows(s: State, taskId: Id, machineId: Id, now: int)
    requires RowsKeyed(s) && StatusesAgree(s) && taskId in s.tasks && machineId in s.machines
    ensures var s' := s.(tasks := Rehomed(s.tasks, taskId, machineId, now)); RowsKeyed(s') && StatusesAgree(s')
  {
  }

  lemma RehomedProducing(tasks: Tasks, taskId: Id, machineId: Id, now: int)
    requires OneProducing(tasks) && taskId in tasks && tasks[taskId].status == TaskWaiting
    ensures OneProducing(Rehomed(tasks, taskId, machineId, now))
  {
  }

  lemma RehomedPositions(tasks: Tasks, taskId: Id, machineId: Id, now: int)
    requires PositionsDistinct(tasks) && taskId in tasks
    ensures PositionsDistinctBut(Rehomed(tasks, taskId, machineId, now), Some(machineId))
  {
  }

  lemma ReorderTasksKeepsInv(s: State, machineId: Id, ids: seq<Id>, now: int)
    requires Inv(s) && ReorderTasks(s, machineId, ids, now).Ok?
    ensures Inv(ReorderTasks(s, machineId, ids, now).value)
  {
    InvAfterRenumber(s, machineId, ids, now);
  }

  // ----- orders -----

  /** Only unlinked orders come, go or change. */
  lemma OrdersChangeKeepsInv(s: State, orders: Orders)
    requires Inv(s)
    requires forall o :: o in orders ==> orders[o].id == o
    requires forall o :: o in orders && (o !in s.orders || orders[o] != s.orders[o]) ==> Unlinked(orders[o])
    requires forall o :: o in s.orders && (o !in orders || orders[o] != s.orders[o]) ==> s.orders[o].taskId.None?
    ensures Inv(s.(orders := orders))
  {
    var s' := s.(orders := orders);
    OrdersChangeKeepsRows(s, orders);
    forall t | t in s'.tasks
      ensures BatchValid(s', t)
    {
      HeldOrdersKept(s.orders, orders, t);
      assert BatchValid(s, t);
      VerdictFrame(s.machines[s.tasks[t].machineId], s.orders, orders, OrdersOfTask(s.orders, t));
    }
  }

  lemma OrdersChangeKeepsRows(s: State, orders: Orders)
    requires RowsKeyed(s) && StatusesAgree(s)
    requires forall o :: o in orders ==> orders[o].id == o
    requires forall o :: o in orders && (o !in s.orders || orders[o] != s.orders[o]) ==> Unlinked(orders[o])
    ensures RowsKeyed(s.(orders := orders)) && StatusesAgree(s.(orders := orders))
  {
  }

  lemma HeldOrdersKept(orders: Orders, orders': Orders, t: Id)
    requires forall o :: o in orders' && (o !in orders || orders'[o] != orders[o]) ==> Unlinked(orders'[o])
    requires forall o :: o in orders && (o !in orders' || orders'[o] != orders[o]) ==> orders[o].taskId.None?
    ensures OrdersOfTask(orders', t) == OrdersOfTask(orders, t)
    ensures forall o :: o in OrdersOfTask(orders, t) ==> o in orders' && orders'[o] == orders[o]
  {
    forall o | o in orders && orders[o].taskId == Some(t)
      ensures o in orders' && orders'[o] == orders[o]
    {
    }
    forall o | o in orders' && orders'[o].taskId == Some(t)
      ensures o in orders && orders'[o] == orders[o]
    {
    }
  }

  lemma CreateOrderKeepsInv(s: State, newId: Id, content: Content, now: int)
    requires Inv(s) && newId !in s.orders
    ensures Inv(CreateOrder(s, newId, content, now))
  {
    OrdersChangeKeepsInv(s, CreateOrder(s, newId, content, now).orders);
  }

  lemma UpdateOrderKeepsInv(s: State, orderId: Id, content: Option<Content>, status: Option<OrderStatus>, now: int)
    requires Inv(s) && UpdateOrder(s, orderId, content, status, now).Ok?
    ensures Inv(UpdateOrder(s, orderId, content, status, now).value)
  {
    OrdersChangeKeepsInv(s, UpdateOrder(s, orderId, content, status, now).value.orders);
  }

  lemma DeleteOrderKeepsInv(s: State, orderId: Id)
    requires Inv(s) && DeleteOrder(s, orderId).Ok?
    ensures Inv(DeleteOrder(s, orderId).value)
  {
    OrdersChangeKeepsInv(s, DeleteOrder(s, orderId).value.orders);
  }
}
