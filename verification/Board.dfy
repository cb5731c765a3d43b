/** The production board as values: what each locked operation makes of the stored rows (production_service.py, order_service.py). */
module Board {
  import opened Sequences
  import opened Records
  import opened ProductionRules
  import opened Tables
  import opened Queues

  /** machines is master data and stays fixed. */
  datatype State = State(machines: map<Id, Machine>, orders: Orders, tasks: Tasks)

  datatype BoardError =
    | MissingArguments | DuplicateIds | TwoTargets | UnsupportedField
    | MachineMissing | OrderMissing | TaskMissing
    | OrderTaken | OrderElsewhere | OrderLinked | StatusNotAllowed
    | Rejected(rule: RuleError) | Changed | BadTransition | MachineBusy | NotWaiting | QueueChanged

  type Outcome = Result<State, BoardError>

  function OrdersOfTask(orders: Orders, t: Id): set<Id> {
    set o | o in orders && orders[o].taskId == Some(t)
  }

  predicate Unlinked(o: Order) { o.status == OrderPending && o.taskId == None }

  /** Set the status and task of some orders; a row that changes is stamped. */
  function Linked(orders: Orders, ids: set<Id>, status: OrderStatus, taskId: Option<Id>, now: int): (r: Orders)
    ensures r.Keys == orders.Keys
  {
    map o | o in orders :: if o in ids then Stamped(orders[o], status, taskId, now) else orders[o]
  }

  function Stamped(o: Order, status: OrderStatus, taskId: Option<Id>, now: int): Order {
    if o.status == status && o.taskId == taskId then o else o.(status := status, taskId := taskId, updatedAt := now)
  }

  function NewTask(tasks: Tasks, id: Id, machineId: Id, now: int): Task {
    Task(id, machineId, NextPosition(tasks, Active(tasks, machineId)), TaskWaiting, now)
  }

  function CreateTask(s: State, machineId: Option<Id>, orderIds: seq<Id>, newId: Id, now: int): Outcome {
    if machineId.None? || orderIds == [] then Err(MissingArguments)
    else if !NoDuplicates(orderIds) then Err(DuplicateIds)
    else if machineId.value !in s.machines then Err(MachineMissing)
    else if exists o :: o in orderIds && o !in s.orders then Err(OrderMissing)
    else if exists o :: o in orderIds && !Unlinked(s.orders[o]) then Err(OrderTaken)
    else match ValidateBatch(s.machines[machineId.value], Rows(s.orders, orderIds))
      case Err(e) => Err(Rejected(e))
      case Ok(_) =>
        Ok(s.(tasks := s.tasks[newId := NewTask(s.tasks, newId, machineId.value, now)],
              orders := Linked(s.orders, SetOf(orderIds), OrderProducing, Some(newId), now)))
  }

  datatype TaskUpdate = TaskUpdate(
    status: Option<TaskStatus>, expectedStatus: Option<TaskStatus>, expectedUpdatedAt: Option<int>,
    expectedOrders: Option<set<Id>>, unsupported: bool)

  predicate Allowed(from: TaskStatus, to: TaskStatus) {
    match from
    case TaskWaiting => to == TaskProducing
    case TaskProducing => to == TaskDone || to == TaskWaiting
    case TaskDone => to == TaskProducing
  }

  predicate AsExpected(s: State, t: Task, u: TaskUpdate) {
    && (u.expectedStatus.Some? ==> u.expectedStatus.value == t.status)
    && (u.expectedUpdatedAt.Some? ==> u.expectedUpdatedAt.value == t.updatedAt)
    && (u.expectedOrders.Some? ==> u.expectedOrders.value == OrdersOfTask(s.orders, t.id))
  }

  predicate OtherProducing(tasks: Tasks, t: Task) {
    exists u :: u in tasks && u != t.id && tasks[u].machineId == t.machineId && tasks[u].status == TaskProducing
  }

  function UpdateTask(s: State, taskId: Id, u: TaskUpdate, now: int): Outcome {
    if u.unsupported then Err(UnsupportedField)
    else if u.status.None? then Err(MissingArguments)
    else if taskId !in s.tasks then Err(TaskMissing)
    else
      var t, status := s.tasks[taskId], u.status.value;
      if t.machineId !in s.machines then Err(MachineMissing)
      else if !AsExpected(s, t, u) then Err(Changed)
      else if status == t.status then Ok(s)
      else if !Allowed(t.status, status) then Err(BadTransition)
      else if status == TaskProducing && Verdict(s.machines[t.machineId], s.orders, OrdersOfTask(s.orders, taskId)).Err? then
        Err(Rejected(Verdict(s.machines[t.machineId], s.orders, OrdersOfTask(s.orders, taskId)).error))
      else if status == TaskProducing && OtherProducing(s.tasks, t) then Err(MachineBusy)
      else
        var position := if t.status == TaskDone then NextPosition(s.tasks, Active(s.tasks, t.machineId)) else t.position;
        var orderStatus := if status == TaskDone then OrderDone else OrderProducing;
        Ok(s.(tasks := s.tasks[taskId := t.(status := status, position := position, updatedAt := now)],
              orders := Linked(s.orders, OrdersOfTask(s.orders, taskId), orderStatus, Some(taskId), now)))
  }

  function Normalised(tasks: Tasks, machineId: Id, now: int): Tasks {
    Renumber(tasks, Queue(tasks, machineId), now)
  }

  function DeleteTask(s: State, taskId: Id, now: int): Outcome {
    if taskId !in s.tasks then Err(TaskMissing)
    else
      var t := s.tasks[taskId];
      if t.machineId !in s.machines then Err(MachineMissing)
      else if t.status != TaskWaiting then Err(NotWaiting)
      else
        Ok(s.(orders := Linked(s.orders, OrdersOfTask(s.orders, taskId), OrderPending, None, now),
              tasks := Normalised(s.tasks - {taskId}, t.machineId, now)))
  }

  datatype Target = ToTask(taskId: Id) | ToMachine(machineId: Id) | ToPending

  /** The checks before an order may leave its place. */
  function LeaveError(s: State, orderId: Id, source: Option<Id>): Option<BoardError>
    requires orderId in s.orders && (source.Some? ==> source.value in s.tasks)
  {
    var o := s.orders[orderId];
    match source
    case None => if Unlinked(o) then None else Some(OrderTaken)
    case Some(t) =>
      if s.tasks[t].status != TaskWaiting then Some(NotWaiting)
      else if o.taskId != Some(t) then Some(OrderElsewhere)
      else None
  }

  /** The checks of the batch the order joins and of the batch it leaves behind. */
  function BatchError(s: State, orderId: Id, source: Option<Id>, target: Target): Option<BoardError>
    requires orderId in s.orders && (source.Some? ==> source.value in s.tasks && s.tasks[source.value].machineId in s.machines)
    requires target.ToTask? ==> target.taskId in s.tasks && s.tasks[target.taskId].machineId in s.machines
    requires target.ToMachine? ==> target.machineId in s.machines
  {
    var joined := match target
                  case ToTask(t) =>
                    Verdict(s.machines[s.tasks[t].machineId], s.orders, OrdersOfTask(s.orders, t) + {orderId})
                  case ToMachine(m) => Verdict(s.machines[m], s.orders, {orderId})
                  case ToPending => Ok(0.0);
    var left := if source.None? then {} else OrdersOfTask(s.orders, source.value) - {orderId};
    if target.ToTask? && s.tasks[target.taskId].status != TaskWaiting then Some(NotWaiting)
    else if joined.Err? then Some(Rejected(joined.error))
    else if left != {} && Verdict(s.machines[s.tasks[source.value].machineId], s.orders, left).Err? then
      Some(Rejected(Verdict(s.machines[s.tasks[source.value].machineId], s.orders, left).error))
    else None
  }

  /** The rows after an order has moved, before queues are renumbered. */
  function Moved(s: State, orderId: Id, source: Option<Id>, target: Target, newId: Id, now: int): State {
    var added := if target.ToMachine? then s.tasks[newId := NewTask(s.tasks, newId, target.machineId, now)] else s.tasks;
    var emptied := source.Some? && OrdersOfTask(s.orders, source.value) <= {orderId};
    var orders := match target
                  case ToTask(t) => Linked(s.orders, {orderId}, OrderProducing, Some(t), now)
                  case ToMachine(_) => Linked(s.orders, {orderId}, OrderProducing, Some(newId), now)
                  case ToPending => Linked(s.orders, {orderId}, OrderPending, None, now);
    s.(orders := orders, tasks := if emptied then added - {source.value} else added)
  }

  /** Renumber the queue the order left, then the one it joined with a new task. */
  function Tidied(tasks: Tasks, left: Option<Id>, joined: Option<Id>, now: int): Tasks {
    var once := if left.Some? then Normalised(tasks, left.value, now) else tasks;
    if joined.Some? && joined != left then Normalised(once, joined.value, now) else once
  }

  function MoveOrder(s: State, orderId: Id, source: Option<Id>, targetTask: Option<Id>, targetMachine: Option<Id>,
                     newId: Id, now: int): Outcome
  {
    if targetTask.Some? && targetMachine.Some? then Err(TwoTargets)
    else if source.Some? && source == targetTask then Ok(s)
    else if (source.Some? && source.value !in s.tasks) || (targetTask.Some? && targetTask.value !in s.tasks) then Err(TaskMissing)
    else if (source.Some? && s.tasks[source.value].machineId !in s.machines)
         || (targetTask.Some? && s.tasks[targetTask.value].machineId !in s.machines)
         || (targetMachine.Some? && targetMachine.value !in s.machines) then Err(MachineMissing)
    else if orderId !in s.orders then Err(OrderMissing)
    else
      var target := if targetTask.Some? then ToTask(targetTask.value)
                    else if targetMachine.Some? then ToMachine(targetMachine.value) else ToPending;
      match LeaveError(s, orderId, source)
      case Some(e) => Err(e)
      case None =>
        match BatchError(s, orderId, source, target)
        case Some(e) => Err(e)
        case None =>
          var moved := Moved(s, orderId, source, target, newId, now);
          var left := if source.Some? then Some(s.tasks[source.value].machineId) else None;
          Ok(moved.(tasks := Tidied(moved.tasks, left, targetMachine, now)))
  }

  function MoveTask(s: State, taskId: Id, machineId: Id, index: nat, now: int): Outcome {
    if taskId !in s.tasks then Err(TaskMissing)
    else
      var t := s.tasks[taskId];
      if t.machineId !in s.machines || machineId !in s.machines then Err(MachineMissing)
      else if t.status != TaskWaiting then Err(NotWaiting)
      else match Verdict(s.machines[machineId], s.orders, OrdersOfTask(s.orders, taskId))
        case Err(e) => Err(Rejected(e))
        case Ok(_) => Ok(s.(tasks := Relocated(s.tasks, taskId, machineId, index, now)))
  }

  function Relocated(tasks: Tasks, taskId: Id, machineId: Id, index: nat, now: int): Tasks
    requires taskId in tasks
  {
    var t := tasks[taskId];
    var without := Remove(Queue(tasks, t.machineId), taskId);
    RemoveMembers(Queue(tasks, t.machineId), taskId);
    if machineId == t.machineId then
      InsertMembers(without, index, taskId);
      Renumber(tasks, InsertAt(without, index, taskId), now)
    else
      InsertMembers(Queue(tasks, machineId), index, taskId);
      var moved := tasks[taskId := t.(machineId := machineId, updatedAt := now)];
      Renumber(Renumber(moved, without, now), InsertAt(Queue(tasks, machineId), index, taskId), now)
  }

  function ReorderTasks(s: State, machineId: Id, ids: seq<Id>, now: int): Outcome {
    if !NoDuplicates(ids) then Err(DuplicateIds)
    else if machineId !in s.machines then Err(MachineMissing)
    else if SetOf(ids) != Active(s.tasks, machineId) then Err(QueueChanged)
    else Ok(s.(tasks := Renumber(s.tasks, ids, now)))
  }

  // ----- orders -----

  function CreateOrder(s: State, newId: Id, content: Content, now: int): State {
    s.(orders := s.orders[newId := Order(newId, content, OrderPending, None, now, now)])
  }

  /** content is what the changed fields make of the order, if any field changes it. */
  function UpdateOrder(s: State, orderId: Id, content: Option<Content>, status: Option<OrderStatus>, now: int): Outcome {
    if orderId !in s.orders then Err(OrderMissing)
    else
      var o := s.orders[orderId];
      if o.taskId.Some? && (content.Some? || status.Some?) then Err(OrderLinked)
      else if status.Some? && status.value != OrderPending then Err(StatusNotAllowed)
      else
        var edited := if content.Some? then o.(content := content.value) else o;
        var reset := if status.Some? then edited.(status := OrderPending, taskId := None) else edited;
        Ok(s.(orders := s.orders[orderId := if reset == o then o else reset.(updatedAt := now)]))
  }

  function DeleteOrder(s: State, orderId: Id): Outcome {
    if orderId !in s.orders then Err(OrderMissing)
    else if s.orders[orderId].taskId.Some? then Err(OrderLinked)
    else Ok(s.(orders := s.orders - {orderId}))
  }

  // ----- the invariant -----

  ghost predicate RowsKeyed(s: State) {
    && (forall m :: m in s.machines ==> s.machines[m].id == m)
    && (forall o :: o in s.orders ==> s.orders[o].id == o)
    && (forall t :: t in s.tasks ==> s.tasks[t].id == t && s.tasks[t].machineId in s.machines)
  }

  /** An order is pending iff it has no task; with a task it is done iff the task is, else in production. */
  ghost predicate StatusesAgree(s: State) {
    forall o :: o in s.orders ==>
      match s.orders[o].taskId
      case None => s.orders[o].status == OrderPending
      case Some(t) => t in s.tasks && s.orders[o].status == if s.tasks[t].status == TaskDone then OrderDone else OrderProducing
  }

  /** The task has orders, and its machine accepts them together. */
  ghost predicate BatchValid(s: State, t: Id)
    requires t in s.tasks
  {
    && s.tasks[t].machineId in s.machines
    && Verdict(s.machines[s.tasks[t].machineId], s.orders, OrdersOfTask(s.orders, t)).Ok?
  }

  ghost predicate BatchesValid(s: State) {
    forall t {:trigger BatchValid(s, t)} :: t in s.tasks ==> BatchValid(s, t)
  }

  ghost predicate OneProducing(tasks: Tasks) {
    forall t, u :: t in tasks && u in tasks && Contenders(tasks, t, u) ==>
      tasks[t].status != TaskProducing || tasks[u].status != TaskProducing
  }

  predicate SameQueue(a: Task, b: Task) { a.machineId == b.machineId }

  predicate Unfinished(t: Task) { t.status != TaskDone }

  /** Two unfinished tasks of one machine. */
  predicate Contenders(tasks: Tasks, t: Id, u: Id)
    requires t in tasks && u in tasks
  {
    t != u && Unfinished(tasks[t]) && Unfinished(tasks[u]) && SameQueue(tasks[t], tasks[u])
  }

  /** Positions are positive, and unfinished tasks of a machine have distinct ones; one machine may be left aside. */
  ghost predicate PositionsDistinctBut(tasks: Tasks, aside: Option<Id>) {
    && (forall t :: t in tasks ==> tasks[t].position >= 1)
    && forall t, u :: t in tasks && u in tasks && Contenders(tasks, t, u) && aside != Some(tasks[t].machineId) ==>
         tasks[t].position != tasks[u].position
  }

  ghost predicate PositionsDistinct(tasks: Tasks) { PositionsDistinctBut(tasks, None) }

  /** Everything but the positions. */
  ghost predicate CoreInv(s: State) {
    RowsKeyed(s) && StatusesAgree(s) && BatchesValid(s) && OneProducing(s.tasks)
  }

  ghost predicate Inv(s: State) {
    CoreInv(s) && PositionsDistinct(s.tasks)
  }
}
