/** Schedule plans: drafting, editing by hand and applying them to the board (scheduling/service.py). */
module SchedulePlans {
  import opened Sequences
  import opened Records
  import opened ProductionRules
  import opened MachineStates
  import opened Planner
  import opened Tables
  import opened Queues
  import opened Board
  import opened ScheduleInputs

  /** One task of a plan, without its texts. */
  datatype Entry = Entry(
    machineId: Id, orderIds: seq<Id>, totalWidth: real, totalKg: Option<real>, totalMetres: real)

  datatype WhyLeft = ByPlanner(reason: Reason) | NotArranged

  datatype LeftOrder = LeftOrder(orderId: Id, why: WhyLeft)

  datatype Plan = Plan(
    status: PlanStatus, inputIds: seq<Id>, fingerprint: Fingerprint, tasks: seq<Entry>, unassigned: seq<LeftOrder>)

  /** What plan_revision hashes. */
  datatype Revision = Revision(tasks: seq<Entry>, unassigned: seq<LeftOrder>)

  function RevisionOf(p: Plan): Revision { Revision(p.tasks, p.unassigned) }

  datatype PlanError =
    | SelectionChanged | NotDraft | Stale | RulesChanged | NothingToApply | MachineGone | MachineSetChanged
    | MachineChanged | PendingChanged | ContentsChanged | OrderGone | OrderChanged
    | MachineOff | EmptyTask | UnknownOrder | Repeated | NotOfThisPlan | Taken | Refused(rule: RuleError)

  // ----- drafting -----

  function EntryOf(t: PlannedTask): Entry {
    Entry(t.machineId, OrderIds(t.orders), t.totalWidth, t.totalKg, t.totalMetres)
  }

  function Entries(tasks: seq<PlannedTask>): (r: seq<Entry>)
    ensures |r| == |tasks| && forall k :: 0 <= k < |r| ==> r[k] == EntryOf(tasks[k])
  {
    seq(|tasks|, k requires 0 <= k < |tasks| => EntryOf(tasks[k]))
  }

  function LeftOrders(us: seq<Unassigned>): (r: seq<LeftOrder>)
    ensures |r| == |us| && forall k :: 0 <= k < |r| ==> r[k] == LeftOrder(us[k].orderId, ByPlanner(us[k].reason))
  {
    seq(|us|, k requires 0 <= k < |us| => LeftOrder(us[k].orderId, ByPlanner(us[k].reason)))
  }

  /** The orders to plan: all the pending ones, or a selection of them. */
  function InputOrders(s: State, selection: Option<seq<Id>>): Result<seq<Order>, PlanError> {
    match selection
    case None => Ok(LoadOrders(s))
    case Some(ids) =>
      if ids == [] || !NoDuplicates(ids) || !(SetOf(ids) <= Pending(s.orders)) then Err(SelectionChanged)
      else Ok(Filter((o: Order) => o.id in ids, LoadOrders(s)))
  }

  lemma InputsDistinct(s: State, selection: Option<seq<Id>>)
    requires RowsKeyed(s) && InputOrders(s, selection).Ok?
    ensures var orders := InputOrders(s, selection).value;
            && DistinctIds(orders)
            && forall o :: o in orders <==>
                 o.id in Pending(s.orders) && s.orders[o.id] == o && (selection.Some? ==> o.id in selection.value)
  {
    LoadedOrders(s);
    if selection.Some? {
      FilterMembers((o: Order) => o.id in selection.value, LoadOrders(s));
      FilterKeepsDistinct((o: Order) => o.id in selection.value, LoadOrders(s));
    }
  }

  lemma {:induction false} FilterKeepsDistinct(keep: Order -> bool, orders: seq<Order>)
    requires DistinctIds(orders)
    ensures DistinctIds(Filter(keep, orders))
  {
    if orders != [] {
      var n := |orders| - 1;
      FilterKeepsDistinct(keep, orders[..n]);
      FilterMembers(keep, orders[..n]);
      var kept := Filter(keep, orders[..n]);
      forall i | 0 <= i < |kept|
        ensures kept[i].id != orders[n].id
      {
        assert kept[i] in orders[..n];
      }
    }
  }

  lemma IdsOfRows(s: State, orders: seq<Order>)
    requires RowsKeyed(s) && forall o :: o in orders ==> o.id in s.orders
    ensures SetOf(OrderIds(orders)) <= s.orders.Keys
  {
    forall i | i in SetOf(OrderIds(orders))
      ensures i in s.orders
    {
      var k :| 0 <= k < |orders| && OrderIds(orders)[k] == i;
      assert orders[k] in orders;
    }
  }

  ghost function Draft(s: State, orders: seq<Order>, scoped: bool): Plan
    requires RowsKeyed(s) && DistinctIds(orders) && forall o :: o in orders ==> o.id in s.orders
  {
    var machines := LoadMachines(s);
    LoadedMachines(s);
    IdsOfRows(s, orders);
    Plan(PlanDraft, OrderIds(orders), FingerprintOf(s, SetOf(OrderIds(orders)), scoped),
         Entries(Planner.Tasks(orders, machines)), LeftOrders(WithReasons(Left(orders, machines), machines)))
  }

  /** create_schedule_plan */
  ghost function CreatePlan(s: State, selection: Option<seq<Id>>): Result<Plan, PlanError>
    requires RowsKeyed(s)
  {
    match InputOrders(s, selection)
    case Err(e) => Err(e)
    case Ok(orders) =>
      InputsDistinct(s, selection);
      Ok(Draft(s, orders, selection.Some?))
  }

  // ----- editing -----

  /** The orders a fingerprint taken now would cover. */
  function CoveredNow(s: State, p: Plan): set<Id> {
    set o | o in Pending(s.orders) && (p.fingerprint.scoped ==> o in p.inputIds)
  }

  predicate IsStale(s: State, p: Plan) {
    p.fingerprint != FingerprintOf(s, CoveredNow(s, p), p.fingerprint.scoped)
  }

  datatype Edit = Edit(machineId: Id, orderIds: seq<Id>)

  function EditError(s: State, p: Plan, taken: set<Id>, e: Edit): Option<PlanError> {
    if e.machineId !in ActiveMachines(s) then Some(MachineOff)
    else if (exists i :: i in e.orderIds && i in taken) || !NoDuplicates(e.orderIds) then Some(Repeated)
    else if exists i :: i in e.orderIds && (i !in p.inputIds || i !in Pending(s.orders)) then Some(NotOfThisPlan)
    else match ValidateBatch(s.machines[e.machineId], Rows(s.orders, e.orderIds))
      case Err(r) => Some(Refused(r))
      case Ok(_) => None
  }

  function EditedEntry(s: State, e: Edit, width: real): Entry
    requires forall i :: i in e.orderIds ==> i in s.orders
  {
    var batch := Rows(s.orders, e.orderIds);
    Entry(e.machineId, e.orderIds, width, BatchKg(batch), SumBy(MetreQuantity, batch))
  }

  /** The entry an edit makes once it has passed its checks. */
  function CheckedEntry(s: State, p: Plan, taken: set<Id>, e: Edit): Result<Entry, PlanError> {
    match EditError(s, p, taken, e)
    case Some(error) => Err(error)
    case None => Ok(EditedEntry(s, e, ValidateBatch(s.machines[e.machineId], Rows(s.orders, e.orderIds)).value))
  }

  /** The entries the edits make, checked one after the other. */
  function EditedEntries(s: State, p: Plan, edits: seq<Edit>): Result<seq<Entry>, PlanError> {
    if edits == [] then Ok([])
    else
      match EditedEntries(s, p, edits[..|edits| - 1])
      case Err(e) => Err(e)
      case Ok(done) =>
        match CheckedEntry(s, p, SetOf(AllIds(done)), edits[|edits| - 1])
        case Err(e) => Err(e)
        case Ok(entry) => Ok(done + [entry])
  }

  function AllIds(entries: seq<Entry>): seq<Id> {
    if entries == [] then [] else AllIds(entries[..|entries| - 1]) + entries[|entries| - 1].orderIds
  }

  function LeftByHand(inputIds: seq<Id>, taken: set<Id>): seq<LeftOrder> {
    if inputIds == [] then []
    else
      var n := |inputIds| - 1;
      LeftByHand(inputIds[..n], taken) + if inputIds[n] in taken then [] else [LeftOrder(inputIds[n], NotArranged)]
  }

  /** update_schedule_draft */
  function UpdateDraft(s: State, p: Plan, revision: Revision, edits: seq<Edit>): Result<Plan, PlanError> {
    if p.status != PlanDraft || revision != RevisionOf(p) then Err(NotDraft)
    else if IsStale(s, p) then Err(Stale)
    else
      match EditedEntries(s, p, edits)
      case Err(e) => Err(e)
      case Ok(entries) =>
        Ok(p.(tasks := entries, unassigned := LeftByHand(p.inputIds, SetOf(AllIds(entries)))))
  }

  // ----- applying -----

  function Existing(s: State, p: Plan): set<Id> { set i | i in p.inputIds && i in s.orders }

  /** What may have changed since the draft was made. */
  function Outdated(s: State, p: Plan): Option<PlanError> {
    var f := p.fingerprint;
    if exists e :: e in p.tasks && e.machineId !in s.machines then Some(MachineGone)
    else if f.machineSet.Some? && f.machineSet.value != ActiveMachines(s) then Some(MachineSetChanged)
    else if exists m :: m in ActiveMachines(s) && m in f.machines && f.machines[m] != PrintOf(s, m) then Some(MachineChanged)
    else if f.pending.Some? && f.pending.value != CoveredNow(s, p) then Some(PendingChanged)
    else if f.contents.Some? && f.contents.value != Contents(s.orders, Existing(s, p)) then Some(ContentsChanged)
    else if Existing(s, p) != SetOf(p.inputIds) then Some(OrderGone)
    else if exists i :: i in Existing(s, p) && (i !in f.stamps || f.stamps[i] != s.orders[i].updatedAt) then Some(OrderChanged)
    else None
  }

  function EntryError(s: State, p: Plan, e: Entry): Option<PlanError>
    requires e.machineId in s.machines
  {
    if !s.machines[e.machineId].active then Some(MachineOff)
    else if e.orderIds == [] then Some(EmptyTask)
    else if exists i :: i in e.orderIds && i !in Existing(s, p) then Some(UnknownOrder)
    else match ValidateBatch(s.machines[e.machineId], Rows(s.orders, e.orderIds))
      case Err(r) => Some(Refused(r))
      case Ok(_) => None
  }

  /** The first complaint about the plan's tasks, in their order. */
  function FirstEntryError(s: State, p: Plan, entries: seq<Entry>): Option<PlanError>
    requires forall e :: e in entries ==> e.machineId in s.machines
  {
    if entries == [] then None
    else
      var n := |entries| - 1;
      assert entries[n] in entries;
      var before := FirstEntryError(s, p, entries[..n]);
      if before.Some? then before else EntryError(s, p, entries[n])
  }

  function ApplyError(s: State, p: Plan): Option<PlanError> {
    if p.status != PlanDraft then Some(NotDraft)
    else if p.fingerprint.rules != Some(RULE_VERSION) then Some(RulesChanged)
    else if p.tasks == [] then Some(NothingToApply)
    else if Outdated(s, p).Some? then Outdated(s, p)
    else if FirstEntryError(s, p, p.tasks).Some? then FirstEntryError(s, p, p.tasks)
    else if !NoDuplicates(AllIds(p.tasks)) then Some(Repeated)
    else if exists i :: i in AllIds(p.tasks) && !(i in s.orders && Unlinked(s.orders[i])) then Some(Taken)
    else None
  }

  /** A new task of the plan, behind every task the machine ever had. */
  function PlaceOne(s: State, e: Entry, newId: Id, now: int): State {
    var task := Task(newId, e.machineId, NextPosition(s.tasks, On(s.tasks, e.machineId)), TaskWaiting, now);
    s.(tasks := s.tasks[newId := task], orders := Linked(s.orders, SetOf(e.orderIds), OrderProducing, Some(newId), now))
  }

  function PlaceAll(s: State, entries: seq<Entry>, newIds: seq<Id>, now: int): State
    requires |newIds| == |entries|
  {
    if entries == [] then s
    else
      var n := |entries| - 1;
      PlaceOne(PlaceAll(s, entries[..n], newIds[..n], now), entries[n], newIds[n], now)
  }

  /** apply_schedule_plan */
  function ApplyPlan(s: State, p: Plan, newIds: seq<Id>, now: int): Result<(State, Plan), PlanError>
    requires |newIds| == |p.tasks|
  {
    match ApplyError(s, p)
    case Some(e) => Err(e)
    case None => Ok((PlaceAll(s, p.tasks, newIds, now), p.(status := PlanApplied)))
  }
}
