/** What the planner must produce (planner.py, build_tasks), as a function of the orders and of the set of machines. */
module Planner {
  import opened Sequences
  import opened Records
  import opened ProductionRules
  import opened MachineStates
  import opened Packer

  datatype PlannedTask = PlannedTask(
    machineId: Id, orders: seq<Order>, totalWidth: real, totalKg: Option<real>, totalMetres: real)

  datatype Reason = NoWidth | NoMachineForCategory | NoMachineForPattern | AboveMaximum | BelowMinimum

  datatype Unassigned = Unassigned(orderId: Id, reason: Reason)

  type States = map<Id, View>

  function Widths(ps: seq<Profile>): (ws: seq<real>)
    ensures |ws| == |ps| && forall k :: 0 <= k < |ps| ==> ws[k] == WidthValue(ps[k])
  {
    seq(|ps|, k requires 0 <= k < |ps| => WidthValue(ps[k]))
  }

  function OrdersOf(ps: seq<Profile>): (r: seq<Order>)
    ensures |r| == |ps| && forall k :: 0 <= k < |ps| ==> r[k] == ps[k].order
  {
    seq(|ps|, k requires 0 <= k < |ps| => ps[k].order)
  }

  predicate DistinctOrders(ps: seq<Profile>) {
    forall i, j :: 0 <= i < j < |ps| ==> ps[i].order.id != ps[j].order.id
  }

  /** Profiles as the planner packs them: distinct orders, each with a positive width. */
  ghost predicate Ready(ps: seq<Profile>) {
    && DistinctOrders(ps)
    && forall p :: p in ps ==> p.width.Some? && p.width.value > 0.0
  }

  /** The batch selected for a machine; empty when no anchored pack is feasible. */
  ghost function Select(remaining: seq<Profile>, m: Machine): seq<Profile> {
    Pick(remaining, Best(Widths(remaining), m.minWidth, m.maxWidth))
  }

  function Rest(remaining: seq<Profile>, batch: seq<Profile>): seq<Profile> {
    Filter((p: Profile) => p.order.id !in OrderIds(OrdersOf(batch)), remaining)
  }

  function MetreQuantity(o: Order): real {
    if o.content.unit == Metre then o.content.quantity else 0.0
  }

  function TaskOf(m: Machine, batch: seq<Profile>): PlannedTask {
    PlannedTask(m.id, OrdersOf(batch), TotalWidth(batch), BatchKg(OrdersOf(batch)), SumBy(MetreQuantity, OrdersOf(batch)))
  }

  ghost predicate Weighed(states: States, ps: seq<Profile>, byCount: bool) {
    !byCount ==>
      && (forall id :: id in states ==> states[id].load.Some?)
      && (forall p :: p in ps ==> QuantityKg(p.order).Some?)
  }

  ghost predicate Keyed(states: States) {
    forall id :: id in states ==> states[id].machine.id == id
  }

  /** The machines that can take a batch of the remaining orders now. */
  ghost function Candidates(states: States, remaining: seq<Profile>): set<Id>
    requires remaining != []
  {
    set id | id in states && Compatible(states[id].machine, remaining[0].signature)
             && Select(remaining, states[id].machine) != []
  }

  ghost function CandidateKey(states: States, remaining: seq<Profile>, byCount: bool, id: Id): (k: Key)
    requires Ready(remaining) && remaining != [] && Weighed(states, remaining, byCount)
    requires id in Candidates(states, remaining)
    ensures k.id == states[id].machine.id
  {
    var v := states[id];
    var batch := Select(remaining, v.machine);
    SelectFacts(remaining, v.machine);
    BatchWeighed(states, remaining, byCount, v.machine);
    ChangeoverKey(v, remaining[0].signature, TotalWidth(batch), BatchKg(OrdersOf(batch)), byCount)
  }

  ghost predicate IsChosen(states: States, remaining: seq<Profile>, byCount: bool, id: Id)
    requires Ready(remaining) && remaining != [] && Weighed(states, remaining, byCount)
  {
    && id in Candidates(states, remaining)
    && forall j :: j in Candidates(states, remaining) && j != id ==>
         KeyLess(CandidateKey(states, remaining, byCount, id), CandidateKey(states, remaining, byCount, j))
  }

  /** The candidate with the least changeover key. */
  ghost function Chosen(states: States, remaining: seq<Profile>, byCount: bool): (id: Id)
    requires Ready(remaining) && remaining != [] && Weighed(states, remaining, byCount) && Keyed(states)
    requires Candidates(states, remaining) != {}
    ensures IsChosen(states, remaining, byCount, id)
  {
    ChosenExists(states, remaining, byCount);
    var id :| IsChosen(states, remaining, byCount, id);
    id
  }

  /** What planning a list of orders gives: tasks in order, orders left over, machine states after. */
  datatype Outcome = Outcome(tasks: seq<PlannedTask>, leftover: seq<Profile>, states: States)

  ghost function PlanGroup(states: States, remaining: seq<Profile>, byCount: bool): (out: Outcome)
    requires Ready(remaining) && Weighed(states, remaining, byCount) && Keyed(states)
    ensures Keyed(out.states) && Weighed(out.states, [], byCount)
    decreases |remaining|
  {
    if remaining == [] || Candidates(states, remaining) == {} then Outcome([], remaining, states)
    else
      var id := Chosen(states, remaining, byCount);
      var m := states[id].machine;
      var batch := Select(remaining, m);
      SelectFacts(remaining, m);
      BatchWeighed(states, remaining, byCount, m);
      RestFacts(remaining, batch);
      var task := TaskOf(m, batch);
      var next := PlanGroup(Assigned(states, id, remaining[0].signature, task), Rest(remaining, batch), byCount);
      Outcome([task] + next.tasks, next.leftover, next.states)
  }

  function Assigned(states: States, id: Id, signature: Signature, task: PlannedTask): States
    requires id in states
  {
    states[id := Loaded(states[id], signature, task.totalWidth, task.totalKg)]
  }

  // ----- facts about one selection -----

  lemma {:induction false} PickWidth(ps: seq<Profile>, s: set<nat>)
    ensures TotalWidth(Pick(ps, s)) == WidthOf(Widths(ps), s, |ps|)
  {
    if ps != [] {
      var n := |ps| - 1;
      PickWidth(ps[..n], s);
      assert Widths(ps[..n]) == Widths(ps)[..n];
      WidthOfPrefix(Widths(ps), s, n);
      var rest := Pick(ps[..n], s);
      if n in s {
        assert (rest + [ps[n]])[..|rest|] == rest;
      } else {
        assert rest + [] == rest;
      }
    }
  }

  lemma {:induction false} WidthOfPrefix(ws: seq<real>, s: set<nat>, n: nat)
    requires n <= |ws|
    ensures WidthOf(ws[..n], s, n) == WidthOf(ws, s, n)
    decreases n
  {
    if n > 0 {
      WidthOfPrefix(ws, s, n - 1);
      WidthOfPrefix(ws[..n], s, n - 1);
      assert ws[..n][..n - 1] == ws[..n - 1];
    }
  }

  /** A selected batch is drawn from the remaining orders and its width lies within the machine's range. */
  lemma SelectFacts(remaining: seq<Profile>, m: Machine)
    requires Ready(remaining)
    ensures forall p :: p in Select(remaining, m) ==> p in remaining
    ensures var batch := Select(remaining, m); var ws := Widths(remaining);
            && (batch == [] <==> forall a: nat :: !Feasible(ws, m.minWidth, m.maxWidth, a))
            && (batch != [] ==> m.minWidth <= TotalWidth(batch) <= m.maxWidth && 0.0 < TotalWidth(batch))
  {
    var ws := Widths(remaining);
    var best := Best(ws, m.minWidth, m.maxWidth);
    PickWidth(remaining, best);
    if c: nat :| Feasible(ws, m.minWidth, m.maxWidth, c) {
      var a: nat :| IsBest(ws, m.minWidth, m.maxWidth, a) && best == Pack(ws, a, m.maxWidth);
      forall k | 0 <= k < |ws|
        ensures ws[k] > 0.0
      {
        assert remaining[k] in remaining;
      }
      PackMaximal(ws, a, m.maxWidth);
      assert remaining[a] in Select(remaining, m);
    } else {
      PickNothing(remaining);
    }
  }

  /** No batch that grows from an order and reaches the machine's minimum is wider than the selected one. */
  lemma SelectIsWidest(remaining: seq<Profile>, m: Machine, a: nat)
    requires Ready(remaining) && a < |remaining| && WidthValue(remaining[a]) <= m.maxWidth
    requires var batch := Pick(remaining, Pack(Widths(remaining), a, m.maxWidth)); TotalWidth(batch) >= m.minWidth
    ensures var batch := Pick(remaining, Pack(Widths(remaining), a, m.maxWidth));
            TotalWidth(batch) <= TotalWidth(Select(remaining, m))
  {
    PickWidth(remaining, Pack(Widths(remaining), a, m.maxWidth));
    PickWidth(remaining, Best(Widths(remaining), m.minWidth, m.maxWidth));
    BestIsWidest(Widths(remaining), m.minWidth, m.maxWidth, a);
  }

  lemma BatchWeighed(states: States, remaining: seq<Profile>, byCount: bool, m: Machine)
    requires Weighed(states, remaining, byCount) && Ready(remaining)
    ensures !byCount ==> BatchKg(OrdersOf(Select(remaining, m))).Some?
  {
    SelectFacts(remaining, m);
    var batch := Select(remaining, m);
    forall o | o in OrdersOf(batch)
      ensures !byCount ==> QuantityKg(o).Some?
    {
      var k :| 0 <= k < |batch| && OrdersOf(batch)[k] == o;
      assert batch[k] in remaining;
    }
  }

  lemma RestFacts(remaining: seq<Profile>, batch: seq<Profile>)
    requires Ready(remaining) && batch != [] && forall p :: p in batch ==> p in remaining
    ensures Ready(Rest(remaining, batch)) && |Rest(remaining, batch)| < |remaining|
    ensures forall p :: p in Rest(remaining, batch) ==> p in remaining
  {
    var keep := (p: Profile) => p.order.id !in OrderIds(OrdersOf(batch));
    FilterDistinct(keep, remaining);
    FilterMembers(keep, remaining);
    assert OrderIds(OrdersOf(batch))[0] == batch[0].order.id;
    FilterShorter(keep, remaining, batch[0]);
  }

  lemma {:induction false} FilterDistinct(p: Profile -> bool, s: seq<Profile>)
    requires DistinctOrders(s)
    ensures DistinctOrders(Filter(p, s))
  {
    if s != [] {
      var n := |s| - 1;
      FilterDistinct(p, s[..n]);
      FilterMembers(p, s[..n]);
      var rest := Filter(p, s[..n]);
      forall i | 0 <= i < |rest|
        ensures rest[i].order.id != s[n].order.id
      {
        assert rest[i] in s[..n];
      }
    }
  }

  lemma {:induction false} FilterShorter<T>(p: T -> bool, s: seq<T>, x: T)
    requires x in s && !p(x)
    ensures |Filter(p, s)| < |s|
  {
    var n := |s| - 1;
    if s[n] != x {
      assert x in s[..n];
      FilterShorter(p, s[..n], x);
    } else {
      FilterMembers(p, s[..n]);
    }
  }

  lemma ChosenExists(states: States, remaining: seq<Profile>, byCount: bool)
    requires Ready(remaining) && remaining != [] && Weighed(states, remaining, byCount) && Keyed(states)
    requires Candidates(states, remaining) != {}
    ensures exists id :: IsChosen(states, remaining, byCount, id)
  {
    var keys := CandidateKeys(states, remaining, byCount);
    var id := LeastKey(keys);
    assert IsChosen(states, remaining, byCount, id);
  }

  lemma ChosenUnique(states: States, remaining: seq<Profile>, byCount: bool, id: Id)
    requires Ready(remaining) && remaining != [] && Weighed(states, remaining, byCount) && Keyed(states)
    requires IsChosen(states, remaining, byCount, id)
    ensures Chosen(states, remaining, byCount) == id
  {
    var other := Chosen(states, remaining, byCount);
    if other != id {
      KeyLessTotal(CandidateKey(states, remaining, byCount, id), CandidateKey(states, remaining, byCount, other));
    }
  }

  ghost function CandidateKeys(states: States, remaining: seq<Profile>, byCount: bool): (keys: map<Id, Key>)
    requires Ready(remaining) && remaining != [] && Weighed(states, remaining, byCount) && Keyed(states)
    ensures keys.Keys == Candidates(states, remaining)
    ensures forall j :: j in keys ==> keys[j] == CandidateKey(states, remaining, byCount, j) && keys[j].id == j
  {
    map j | j in Candidates(states, remaining) :: CandidateKey(states, remaining, byCount, j)
  }

  // ----- groups and the whole plan -----

  /** Orders are planned together when they agree on this; the id keeps orders with missing data apart. */
  datatype GroupKey = GroupKey(signature: Signature, metre: bool, alone: Option<Id>)

  function KeyOf(p: Profile): GroupKey {
    GroupKey(p.signature, IsMetre(p), if CompleteForMerge(p.signature) then None else Some(p.order.id))
  }

  /** The distinct keys in order of first occurrence. */
  function KeysOf(ps: seq<Profile>): (ks: seq<GroupKey>)
    ensures NoDuplicates(ks)
    ensures forall k :: k in ks <==> exists p :: p in ps && KeyOf(p) == k
  {
    if ps == [] then []
    else
      var front, p := ps[..|ps| - 1], ps[|ps| - 1];
      assert forall q :: q in ps <==> q in front || q == p;
      var ks := KeysOf(front);
      if KeyOf(p) in ks then ks else ks + [KeyOf(p)]
  }

  function GroupOf(ps: seq<Profile>, k: GroupKey): seq<Profile> {
    Filter((p: Profile) => KeyOf(p) == k, ps)
  }

  lemma GroupReady(states: States, ps: seq<Profile>, k: GroupKey, byCount: bool)
    requires Ready(ps) && Weighed(states, ps, byCount)
    ensures Ready(GroupOf(ps, k)) && Weighed(states, GroupOf(ps, k), byCount)
  {
    FilterDistinct((p: Profile) => KeyOf(p) == k, ps);
    FilterMembers((p: Profile) => KeyOf(p) == k, ps);
  }

  ghost function PlanGroups(states: States, ps: seq<Profile>, keys: seq<GroupKey>, byCount: bool): (out: Outcome)
    requires Ready(ps) && Weighed(states, ps, byCount) && Keyed(states)
    ensures Keyed(out.states) && Weighed(out.states, [], byCount)
  {
    if keys == [] then Outcome([], [], states)
    else
      var n := |keys| - 1;
      var before := PlanGroups(states, ps, keys[..n], byCount);
      GroupReady(before.states, ps, keys[n], byCount);
      var last := PlanGroup(before.states, GroupOf(ps, keys[n]), byCount);
      Outcome(before.tasks + last.tasks, before.leftover + last.leftover, last.states)
  }

  predicate DistinctMachines(machines: seq<LoadedMachine>) {
    forall i, j :: 0 <= i < j < |machines| ==> machines[i].machine.id != machines[j].machine.id
  }

  ghost function StatesOf(machines: seq<LoadedMachine>): (states: States)
    requires DistinctMachines(machines)
    ensures Keyed(states)
  {
    map m | m in machines :: m.machine.id := InitialView(m)
  }

  lemma StateOfMachine(machines: seq<LoadedMachine>, k: nat)
    requires DistinctMachines(machines) && k < |machines|
    ensures machines[k].machine.id in StatesOf(machines)
    ensures StatesOf(machines)[machines[k].machine.id] == InitialView(machines[k])
  {
    assert machines[k] in machines;
  }

  lemma MachineOfState(machines: seq<LoadedMachine>, id: Id) returns (k: nat)
    requires DistinctMachines(machines) && id in StatesOf(machines)
    ensures k < |machines| && machines[k].machine.id == id
  {
    k :| k < |machines| && machines[k].machine.id == id;
  }

  function UnassignedReason(p: Profile, machines: seq<LoadedMachine>): Reason {
    if p.width.None? then NoWidth
    else if !exists m :: m in machines && SupportsCategory(m.machine, p.signature) then NoMachineForCategory
    else if !exists m :: m in machines && Fits(m.machine, p.signature) then NoMachineForPattern
    else if forall m :: m in machines && Fits(m.machine, p.signature) ==> p.width.value > m.machine.maxWidth then AboveMaximum
    else BelowMinimum
  }

  predicate Fits(m: Machine, s: Signature) { SupportsCategory(m, s) && SupportsPattern(m, s) }

  function WithReasons(ps: seq<Profile>, machines: seq<LoadedMachine>): (r: seq<Unassigned>)
    ensures |r| == |ps|
    ensures forall k :: 0 <= k < |ps| ==> r[k] == Unassigned(ps[k].order.id, UnassignedReason(ps[k], machines))
  {
    seq(|ps|, k requires 0 <= k < |ps| => Unassigned(ps[k].order.id, UnassignedReason(ps[k], machines)))
  }

  predicate HasWidth(p: Profile) { p.width.Some? }
  predicate LacksWidth(p: Profile) { p.width.None? }

  predicate DistinctIds(orders: seq<Order>) {
    forall i, j :: 0 <= i < j < |orders| ==> orders[i].id != orders[j].id
  }

  /** The outcome of planning all orders that have a width. */
  ghost function PlanAll(orders: seq<Order>, machines: seq<LoadedMachine>): Outcome
    requires DistinctIds(orders) && DistinctMachines(machines)
  {
    var ps := Filter(HasWidth, ProfilesOf(orders));
    var byCount := ByTaskCount(orders, machines);
    var states := StatesOf(machines);
    InputsReady(orders, machines);
    PlanGroups(states, ps, KeysOf(ps), byCount)
  }

  ghost function Tasks(orders: seq<Order>, machines: seq<LoadedMachine>): seq<PlannedTask>
    requires DistinctIds(orders) && DistinctMachines(machines)
  {
    PlanAll(orders, machines).tasks
  }

  ghost function Left(orders: seq<Order>, machines: seq<LoadedMachine>): seq<Profile>
    requires DistinctIds(orders) && DistinctMachines(machines)
  {
    Filter(LacksWidth, ProfilesOf(orders)) + PlanAll(orders, machines).leftover
  }

  lemma InputsReady(orders: seq<Order>, machines: seq<LoadedMachine>)
    requires DistinctIds(orders) && DistinctMachines(machines)
    ensures var ps := Filter(HasWidth, ProfilesOf(orders));
            Ready(ps) && Weighed(StatesOf(machines), ps, ByTaskCount(orders, machines))
  {
    var ps := Filter(HasWidth, ProfilesOf(orders));
    FilterDistinct(HasWidth, ProfilesOf(orders));
    FilterMembers(HasWidth, ProfilesOf(orders));
    ProfileMembers(orders);
  }
}
