/** The rows of the factory database that scheduling reads and writes. */
module Records {
  import opened Sequences

  /** Row identifiers: only equality and a total order matter. */
  type Id = nat

  datatype Unit = Metre | Tonne | Kilogram | Gram | OtherUnit(name: string)

  datatype OrderStatus = OrderPending | OrderProducing | OrderDone

  datatype TaskStatus = TaskWaiting | TaskProducing | TaskDone

  /**
   * What an order asks for. widthNumber is the first number in the width parameter, inCentimetres whether
   * that text ends in cm; material, thickness and pattern are the stripped texts, empty when absent.
   */
  datatype Content = Content(
    quantity: real, unit: Unit,
    widthNumber: Option<real>, inCentimetres: bool,
    material: string, thickness: string, pattern: string,
    productId: Id, categoryId: Id, categoryName: string, customerId: Id)

  datatype Order = Order(
    id: Id, content: Content, status: OrderStatus, taskId: Option<Id>, createdAt: int, updatedAt: int)

  /** name holds the code points of the machine's name; patterns maps each linked pattern to its name. */
  datatype Machine = Machine(
    id: Id, name: seq<nat>, active: bool, minWidth: real, maxWidth: real,
    categories: set<Id>, patterns: map<Id, string>)

  datatype Task = Task(id: Id, machineId: Id, position: int, status: TaskStatus, updatedAt: int)

  datatype PlanStatus = PlanDraft | PlanApplied | PlanSuperseded | PlanClosed

  function OrderIds(orders: seq<Order>): (r: seq<Id>)
    ensures |r| == |orders| && forall i :: 0 <= i < |r| ==> r[i] == orders[i].id
  {
    seq(|orders|, i requires 0 <= i < |orders| => orders[i].id)
  }

  /** A task and a machine with their related rows loaded. */
  datatype LoadedTask = LoadedTask(task: Task, orders: seq<Order>)

  datatype LoadedMachine = LoadedMachine(machine: Machine, tasks: seq<LoadedTask>)
}
