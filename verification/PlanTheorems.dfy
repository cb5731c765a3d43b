/** The planner's guarantees for a whole plan: over all groups, for all orders and machines. */
module PlanTheorems {
  import opened Sequences
  import opened Records
  import opened ProductionRules
  import opened MachineStates
  import opened Packer
  import opened Planner
  import opened PlannerProperties

  // ----- groups -----

  lemma GroupMembers(ps: seq<Profile>, k: GroupKey)
    ensures forall p :: p in GroupOf(ps, k) <==> p in ps && KeyOf(p) == k
  {
    FilterMembers((p: Profile) => KeyOf(p) == k, ps);
  }

  lemma GroupAlike(ps: seq<Profile>, k: GroupKey)
    requires Ready(ps) && Proper(ps)
    ensures Alike(GroupOf(ps, k)) && Proper(GroupOf(ps, k))
  {
    GroupMembers(ps, k);
    ProperPart(ps, GroupOf(ps, k));
    FilterDistinct((p: Profile) => KeyOf(p) == k, ps);
    OneKeyAlike(GroupOf(ps, k), k);
  }

  lemma OneKeyAlike(g: seq<Profile>, k: GroupKey)
    requires DistinctOrders(g) && forall p :: p in g ==> KeyOf(p) == k
    ensures Alike(g)
  {
    if |g| > 1 {
      assert g[0] in g && g[1] in g;
      TogetherComplete(g[0], g[1], k);
    }
  }

  /** Two orders share a key only when nothing is missing from their signature. */
  lemma TogetherComplete(p: Profile, q: Profile, k: GroupKey)
    requires KeyOf(p) == k && KeyOf(q) == k && p.order.id != q.order.id
    ensures CompleteForMerge(k.signature)
  {
    assert k.alone.Some? ==> k.alone == Some(p.order.id) && k.alone == Some(q.order.id);
  }

  /** The orders whose key is among the given ones. */
  function Kept(ps: seq<Profile>, keys: seq<GroupKey>): seq<Profile> {
    Filter((p: Profile) => KeyOf(p) in keys, ps)
  }

  lemma {:induction false} KeysSplit(ps: seq<Profile>, keys: seq<GroupKey>, k: GroupKey)
    requires k !in keys
    ensures multiset(OrdersOf(Kept(ps, keys + [k])))
            == multiset(OrdersOf(Kept(ps, keys))) + multiset(OrdersOf(GroupOf(ps, k)))
  {
    if ps != [] {
      var n := |ps| - 1;
      KeysSplit(ps[..n], keys, k);
      OrdersOfSnoc(Kept(ps[..n], keys + [k]), ps[n]);
      OrdersOfSnoc(Kept(ps[..n], keys), ps[n]);
      OrdersOfSnoc(GroupOf(ps[..n], k), ps[n]);
      FilterSnoc((p: Profile) => KeyOf(p) in keys + [k], ps);
      FilterSnoc((p: Profile) => KeyOf(p) in keys, ps);
      FilterSnoc((p: Profile) => KeyOf(p) == k, ps);
    }
  }

  lemma FilterSnoc(keep: Profile -> bool, ps: seq<Profile>)
    requires ps != []
    ensures var n := |ps| - 1;
            Filter(keep, ps) == if keep(ps[n]) then Filter(keep, ps[..n]) + [ps[n]] else Filter(keep, ps[..n])
  {
  }

  lemma OrdersOfAppend(a: seq<Profile>, b: seq<Profile>)
    ensures OrdersOf(a + b) == OrdersOf(a) + OrdersOf(b)
  {
  }

  /** The orders of the planned tasks and those left over, together. */
  ghost function Bag(out: Outcome): multiset<Order> {
    multiset(AllOrders(out.tasks)) + multiset(OrdersOf(out.leftover))
  }

  ghost function OrderBag(ps: seq<Profile>): multiset<Order> { multiset(OrdersOf(ps)) }

  lemma {:induction false} GroupsConserve(states: States, ps: seq<Profile>, keys: seq<GroupKey>, byCount: bool)
    requires Ready(ps) && Weighed(states, ps, byCount) && Keyed(states) && NoDuplicates(keys)
    ensures Bag(PlanGroups(states, ps, keys, byCount)) == OrderBag(Kept(ps, keys))
  {
    if keys == [] {
      NoGroupConserves(states, ps, byCount);
    } else {
      var n := |keys| - 1;
      GroupsConserve(states, ps, keys[..n], byCount);
      LastOneConserves(states, ps, keys, n, byCount);
    }
  }

  lemma LastOneConserves(states: States, ps: seq<Profile>, keys: seq<GroupKey>, n: nat, byCount: bool)
    requires Ready(ps) && Weighed(states, ps, byCount) && Keyed(states) && NoDuplicates(keys) && |keys| == n + 1
    requires Bag(PlanGroups(states, ps, keys[..n], byCount)) == OrderBag(Kept(ps, keys[..n]))
    ensures Bag(PlanGroups(states, ps, keys, byCount)) == OrderBag(Kept(ps, keys))
  {
    OneMoreConserves(states, ps, keys[..n], keys[n], byCount);
    assert keys[..n] + [keys[n]] == keys;
  }

  lemma NoGroupConserves(states: States, ps: seq<Profile>, byCount: bool)
    requires Ready(ps) && Weighed(states, ps, byCount) && Keyed(states)
    ensures Bag(PlanGroups(states, ps, [], byCount)) == OrderBag(Kept(ps, []))
  {
    NothingKept((p: Profile) => KeyOf(p) in [], ps);
  }

  lemma OneMoreConserves(states: States, ps: seq<Profile>, keys: seq<GroupKey>, k: GroupKey, byCount: bool)
    requires Ready(ps) && Weighed(states, ps, byCount) && Keyed(states) && k !in keys
    requires Bag(PlanGroups(states, ps, keys, byCount)) == OrderBag(Kept(ps, keys))
    ensures Bag(PlanGroups(states, ps, keys + [k], byCount)) == OrderBag(Kept(ps, keys + [k]))
  {
    LastGroupConserves(PlanGroups(states, ps, keys, byCount), ps, keys, k, byCount);
    assert (keys + [k])[..|keys|] == keys;
  }

  lemma LastGroupConserves(before: Outcome, ps: seq<Profile>, keys: seq<GroupKey>, k: GroupKey, byCount: bool)
    requires Ready(ps) && Weighed(before.states, [], byCount) && Weighed(map[], ps, byCount) && Keyed(before.states)
    requires k !in keys && Bag(before) == OrderBag(Kept(ps, keys))
    ensures Ready(GroupOf(ps, k)) && Weighed(before.states, GroupOf(ps, k), byCount)
    ensures var last := PlanGroup(before.states, GroupOf(ps, k), byCount);
            Bag(Outcome(before.tasks + last.tasks, before.leftover + last.leftover, last.states))
            == OrderBag(Kept(ps, keys + [k]))
  {
    GroupReady(before.states, ps, k, byCount);
    GroupConserves(before.states, GroupOf(ps, k), byCount);
    var last := PlanGroup(before.states, GroupOf(ps, k), byCount);
    Joined(before.tasks, last.tasks, before.leftover, last.leftover);
    KeysSplit(ps, keys, k);
  }

  lemma Joined(t1: seq<PlannedTask>, t2: seq<PlannedTask>, l1: seq<Profile>, l2: seq<Profile>)
    ensures multiset(AllOrders(t1 + t2)) + multiset(OrdersOf(l1 + l2))
            == (multiset(AllOrders(t1)) + multiset(OrdersOf(l1))) + (multiset(AllOrders(t2)) + multiset(OrdersOf(l2)))
  {
    AllOrdersAppend(t1, t2);
    OrdersOfAppend(l1, l2);
  }

  lemma {:induction false} NothingKept(keep: Profile -> bool, ps: seq<Profile>)
    requires forall p :: p in ps ==> !keep(p)
    ensures Filter(keep, ps) == []
  {
    if ps != [] {
      NothingKept(keep, ps[..|ps| - 1]);
    }
  }

  lemma {:induction false} GroupsFrame(states: States, ps: seq<Profile>, keys: seq<GroupKey>, byCount: bool)
    requires Ready(ps) && Weighed(states, ps, byCount) && Keyed(states)
    ensures var out := PlanGroups(states, ps, keys, byCount);
            (forall p :: p in out.leftover ==> p in ps && KeyOf(p) in keys) && SameMachines(states, out.states)
  {
    if keys != [] {
      var n := |keys| - 1;
      GroupsFrame(states, ps, keys[..n], byCount);
      var before := PlanGroups(states, ps, keys[..n], byCount);
      GroupReady(before.states, ps, keys[n], byCount);
      GroupFrame(before.states, GroupOf(ps, keys[n]), byCount);
      FilterMembers((p: Profile) => KeyOf(p) == keys[n], ps);
    }
  }

  lemma {:induction false} GroupsRefine(states: States, ps: seq<Profile>, keys: seq<GroupKey>, byCount: bool)
    requires Ready(ps) && Proper(ps) && Weighed(states, ps, byCount) && Keyed(states)
    ensures forall t :: t in PlanGroups(states, ps, keys, byCount).tasks ==> TaskValid(states, t)
  {
    if keys != [] {
      var n := |keys| - 1;
      GroupsRefine(states, ps, keys[..n], byCount);
      GroupsFrame(states, ps, keys[..n], byCount);
      var before := PlanGroups(states, ps, keys[..n], byCount);
      GroupReady(before.states, ps, keys[n], byCount);
      GroupAlike(ps, keys[n]);
      GroupRefines(before.states, GroupOf(ps, keys[n]), byCount);
      BothValid(states, before.states, before.tasks, PlanGroup(before.states, GroupOf(ps, keys[n]), byCount).tasks);
    }
  }

  lemma BothValid(s: States, t: States, first: seq<PlannedTask>, second: seq<PlannedTask>)
    requires SameMachines(s, t)
    requires (forall k :: k in first ==> TaskValid(s, k)) && (forall k :: k in second ==> TaskValid(t, k))
    ensures forall k :: k in first + second ==> TaskValid(s, k)
  {
  }

  lemma {:induction false} GroupsBooked(states: States, ps: seq<Profile>, keys: seq<GroupKey>, byCount: bool)
    requires Ready(ps) && Weighed(states, ps, byCount) && Keyed(states)
    ensures var out := PlanGroups(states, ps, keys, byCount); AllBooked(states, out.states, out.tasks)
  {
    if keys != [] {
      var n := |keys| - 1;
      GroupsBooked(states, ps, keys[..n], byCount);
      var before := PlanGroups(states, ps, keys[..n], byCount);
      GroupReady(before.states, ps, keys[n], byCount);
      GroupBooked(before.states, GroupOf(ps, keys[n]), byCount);
      var last := PlanGroup(before.states, GroupOf(ps, keys[n]), byCount);
      AllBookedCompose(states, before.states, last.states, before.tasks, last.tasks);
    }
  }

  /** No machine can take any batch of the leftover orders that share key k. */
  ghost predicate Exhausted(states: States, left: seq<Profile>, k: GroupKey) {
    GroupOf(left, k) != [] ==> Candidates(states, GroupOf(left, k)) == {}
  }

  lemma GroupsOfAppend(a: seq<Profile>, b: seq<Profile>, k: GroupKey)
    ensures GroupOf(a + b, k) == GroupOf(a, k) + GroupOf(b, k)
  {
    FilterAppend((p: Profile) => KeyOf(p) == k, a, b);
  }

  lemma {:induction false} GroupsExhausted(
    states: States, ps: seq<Profile>, keys: seq<GroupKey>, byCount: bool, k: GroupKey)
    requires Ready(ps) && Weighed(states, ps, byCount) && Keyed(states) && NoDuplicates(keys)
    ensures Exhausted(states, PlanGroups(states, ps, keys, byCount).leftover, k)
  {
    if keys != [] {
      var n := |keys| - 1;
      var before := PlanGroups(states, ps, keys[..n], byCount);
      GroupReady(before.states, ps, keys[n], byCount);
      GroupsFrame(states, ps, keys[..n], byCount);
      if k == keys[n] {
        LastGroupExhausted(states, before, ps, keys[..n], byCount, k);
      } else {
        GroupsExhausted(states, ps, keys[..n], byCount, k);
        EarlierGroupExhausted(states, before, ps, keys[n], byCount, k);
      }
    }
  }

  lemma LastGroupExhausted(
    states: States, before: Outcome, ps: seq<Profile>, keys: seq<GroupKey>, byCount: bool, k: GroupKey)
    requires Ready(GroupOf(ps, k)) && Weighed(before.states, GroupOf(ps, k), byCount) && Keyed(before.states)
    requires k !in keys && (forall p :: p in before.leftover ==> KeyOf(p) in keys) && SameMachines(states, before.states)
    ensures Exhausted(states, before.leftover + PlanGroup(before.states, GroupOf(ps, k), byCount).leftover, k)
  {
    var group := GroupOf(ps, k);
    var last := PlanGroup(before.states, group, byCount);
    GroupsOfAppend(before.leftover, last.leftover, k);
    GroupFrame(before.states, group, byCount);
    FilterMembers((p: Profile) => KeyOf(p) == k, ps);
    NothingKept((p: Profile) => KeyOf(p) == k, before.leftover);
    FilterAll((p: Profile) => KeyOf(p) == k, last.leftover);
    assert GroupOf(before.leftover + last.leftover, k) == last.leftover;
    GroupExhausted(before.states, group, byCount);
    if last.leftover != [] {
      CandidatesFromMachines(states, before.states, last.leftover);
    }
  }

  lemma EarlierGroupExhausted(
    states: States, before: Outcome, ps: seq<Profile>, last: GroupKey, byCount: bool, k: GroupKey)
    requires Ready(GroupOf(ps, last)) && Weighed(before.states, GroupOf(ps, last), byCount) && Keyed(before.states)
    requires k != last && Exhausted(states, before.leftover, k)
    ensures Exhausted(states, before.leftover + PlanGroup(before.states, GroupOf(ps, last), byCount).leftover, k)
  {
    var left := PlanGroup(before.states, GroupOf(ps, last), byCount).leftover;
    GroupsOfAppend(before.leftover, left, k);
    GroupFrame(before.states, GroupOf(ps, last), byCount);
    FilterMembers((p: Profile) => KeyOf(p) == last, ps);
    NothingKept((p: Profile) => KeyOf(p) == k, left);
    assert GroupOf(before.leftover + left, k) == GroupOf(before.leftover, k);
  }

  // ----- whole plans -----

  lemma PlanInputs(orders: seq<Order>, machines: seq<LoadedMachine>)
    requires DistinctIds(orders) && DistinctMachines(machines)
    ensures var ps := Filter(HasWidth, ProfilesOf(orders));
            && Ready(ps) && Proper(ps) && Weighed(StatesOf(machines), ps, ByTaskCount(orders, machines))
            && Kept(ps, KeysOf(ps)) == ps
  {
    var ps := Filter(HasWidth, ProfilesOf(orders));
    InputsReady(orders, machines);
    FilterMembers(HasWidth, ProfilesOf(orders));
    ProfileMembers(orders);
    FilterAll((p: Profile) => KeyOf(p) in KeysOf(ps), ps);
  }

  lemma PlanBag(orders: seq<Order>, machines: seq<LoadedMachine>)
    requires DistinctIds(orders) && DistinctMachines(machines)
    ensures Bag(PlanAll(orders, machines)) == OrderBag(Filter(HasWidth, ProfilesOf(orders)))
  {
    var ps := Filter(HasWidth, ProfilesOf(orders));
    PlanInputs(orders, machines);
    GroupsConserve(StatesOf(machines), ps, KeysOf(ps), ByTaskCount(orders, machines));
  }

  /** Every order is planned exactly once or left exactly once. */
  lemma PlanConserves(orders: seq<Order>, machines: seq<LoadedMachine>)
    requires DistinctIds(orders) && DistinctMachines(machines)
    ensures multiset(AllOrders(Tasks(orders, machines))) + multiset(OrdersOf(Left(orders, machines))) == multiset(orders)
  {
    PlanBag(orders, machines);
    WithWidthless(orders, PlanAll(orders, machines).leftover);
  }

  lemma WithWidthless(orders: seq<Order>, leftover: seq<Profile>)
    ensures var lacking := Filter(LacksWidth, ProfilesOf(orders));
            && multiset(OrdersOf(lacking + leftover)) == multiset(OrdersOf(lacking)) + multiset(OrdersOf(leftover))
            && multiset(orders) == OrderBag(Filter(HasWidth, ProfilesOf(orders))) + multiset(OrdersOf(lacking))
  {
    OrdersSplit(HasWidth, LacksWidth, ProfilesOf(orders));
    OrdersOfAppend(Filter(LacksWidth, ProfilesOf(orders)), leftover);
    assert OrdersOf(ProfilesOf(orders)) == orders;
  }

  /** The validator accepts every planned task on its machine, with the width the planner states. */
  lemma PlanRefinesRules(orders: seq<Order>, machines: seq<LoadedMachine>, t: PlannedTask)
    requires DistinctIds(orders) && DistinctMachines(machines) && t in Tasks(orders, machines)
    ensures exists m :: m in machines && m.machine.id == t.machineId
                        && ValidateBatch(m.machine, t.orders) == Ok(t.totalWidth)
    ensures t.totalKg == BatchKg(t.orders) && t.orders != []
  {
    var ps := Filter(HasWidth, ProfilesOf(orders));
    PlanInputs(orders, machines);
    GroupsRefine(StatesOf(machines), ps, KeysOf(ps), ByTaskCount(orders, machines));
    var m :| m in machines && m.machine.id == t.machineId;
    assert StatesOf(machines)[t.machineId] == InitialView(m);
  }

  /** Each machine's final task count and load are its initial ones plus those of the tasks it received. */
  lemma PlanBooksBalance(orders: seq<Order>, machines: seq<LoadedMachine>, m: LoadedMachine)
    requires DistinctIds(orders) && DistinctMachines(machines) && m in machines
    ensures m.machine.id in PlanAll(orders, machines).states
    ensures Booked(InitialView(m), PlanAll(orders, machines).states[m.machine.id],
                   TasksOn(Tasks(orders, machines), m.machine.id))
  {
    var ps := Filter(HasWidth, ProfilesOf(orders));
    PlanInputs(orders, machines);
    GroupsBooked(StatesOf(machines), ps, KeysOf(ps), ByTaskCount(orders, machines));
    assert StatesOf(machines)[m.machine.id] == InitialView(m);
  }

  lemma PlanExhausts(orders: seq<Order>, machines: seq<LoadedMachine>, k: GroupKey)
    requires DistinctIds(orders) && DistinctMachines(machines)
    ensures Exhausted(StatesOf(machines), PlanAll(orders, machines).leftover, k)
  {
    var ps := Filter(HasWidth, ProfilesOf(orders));
    PlanInputs(orders, machines);
    GroupsExhausted(StatesOf(machines), ps, KeysOf(ps), ByTaskCount(orders, machines), k);
  }

  lemma PlanLeftFrom(orders: seq<Order>, machines: seq<LoadedMachine>)
    requires DistinctIds(orders) && DistinctMachines(machines)
    ensures var left := PlanAll(orders, machines).leftover;
            Proper(left) && forall p :: p in left ==> p.width.Some? && p.width.value > 0.0 && p.order in orders
  {
    var ps := Filter(HasWidth, ProfilesOf(orders));
    PlanInputs(orders, machines);
    GroupsFrame(StatesOf(machines), ps, KeysOf(ps), ByTaskCount(orders, machines));
    FilterMembers(HasWidth, ProfilesOf(orders));
    ProfileMembers(orders);
  }

  /** A leftover order fits no machine alone: each machine that supports it is too narrow or asks for more width. */
  lemma NothingSchedulableDropped(orders: seq<Order>, machines: seq<LoadedMachine>, p: Profile, m: LoadedMachine)
    requires DistinctIds(orders) && DistinctMachines(machines)
    requires p in PlanAll(orders, machines).leftover && m in machines && Compatible(m.machine, p.signature)
    ensures p.width.Some? && (p.width.value > m.machine.maxWidth || p.width.value < m.machine.minWidth)
  {
    var left := PlanAll(orders, machines).leftover;
    var group := GroupOf(left, KeyOf(p));
    PlanExhausts(orders, machines, KeyOf(p));
    PlanLeftFrom(orders, machines);
    FilterMembers((q: Profile) => KeyOf(q) == KeyOf(p), left);
    assert p in group && group[0] in group;
    var states := StatesOf(machines);
    assert states[m.machine.id].machine == m.machine;
    assert m.machine.id !in Candidates(states, group);
    LeftDistinct(orders, machines);
    FilterDistinct((q: Profile) => KeyOf(q) == KeyOf(p), left);
    AloneFeasible(group, m.machine, p);
  }

  /** A group from which nothing is selected for a machine holds no order that fits that machine alone. */
  lemma AloneFeasible(group: seq<Profile>, m: Machine, p: Profile)
    requires Ready(group) && p in group && Select(group, m) == []
    ensures p.width.value > m.maxWidth || p.width.value < m.minWidth
  {
    var ws := Widths(group);
    var k: nat :| k < |group| && group[k] == p;
    SelectFacts(group, m);
    if ws[k] <= m.maxWidth {
      forall j | 0 <= j < |ws|
        ensures ws[j] > 0.0
      {
        assert group[j] in group;
      }
      PackMaximal(ws, k, m.maxWidth);
      assert !Feasible(ws, m.minWidth, m.maxWidth, k);
    }
  }

  lemma LeftDistinct(orders: seq<Order>, machines: seq<LoadedMachine>)
    requires DistinctIds(orders) && DistinctMachines(machines)
    ensures DistinctIds(OrdersOf(Left(orders, machines)))
    ensures DistinctOrders(PlanAll(orders, machines).leftover)
  {
    PlanConserves(orders, machines);
    PartDistinct(orders, OrdersOf(Left(orders, machines)));
    TailDistinct(Filter(LacksWidth, ProfilesOf(orders)), PlanAll(orders, machines).leftover);
  }

  lemma TailDistinct(a: seq<Profile>, b: seq<Profile>)
    requires DistinctIds(OrdersOf(a + b))
    ensures DistinctOrders(b)
  {
    forall i, j | 0 <= i < j < |b|
      ensures b[i].order.id != b[j].order.id
    {
      assert OrdersOf(a + b)[|a| + i] == b[i].order && OrdersOf(a + b)[|a| + j] == b[j].order;
    }
  }

  lemma PartDistinct(orders: seq<Order>, part: seq<Order>)
    requires DistinctIds(orders) && multiset(part) <= multiset(orders)
    ensures DistinctIds(part)
  {
    forall i, j | 0 <= i < j < |part|
      ensures part[i].id != part[j].id
    {
      if part[i] == part[j] {
        CountedTwice(part, i, j);
        assert NoDuplicates(orders);
        CountedOnce(orders, part[i]);
      } else {
        assert part[i] in multiset(part) && part[j] in multiset(part);
        assert part[i] in multiset(orders) && part[j] in multiset(orders);
      }
    }
  }

  /** Each reason says what is the case. */
  lemma ReasonsAreTrue(orders: seq<Order>, machines: seq<LoadedMachine>, p: Profile)
    requires DistinctIds(orders) && DistinctMachines(machines) && p in Left(orders, machines)
    requires forall m :: m in machines ==> m.machine.active
    ensures var r := UnassignedReason(p, machines);
            && (r == NoWidth <==> p.width.None?)
            && (r == AboveMaximum <==>
                  && p.width.Some? && (exists m :: m in machines && Fits(m.machine, p.signature))
                  && forall m :: m in machines && Fits(m.machine, p.signature) ==> p.width.value > m.machine.maxWidth)
            && (r == BelowMinimum ==>
                  && (exists m :: m in machines && Fits(m.machine, p.signature) && p.width.value < m.machine.minWidth)
                  && forall m :: m in machines && Fits(m.machine, p.signature) && p.width.value <= m.machine.maxWidth
                                 ==> p.width.value < m.machine.minWidth)
  {
    FilterMembers(LacksWidth, ProfilesOf(orders));
    if p.width.Some? {
      assert p in PlanAll(orders, machines).leftover;
      LeftBelowMinimum(orders, machines, p);
    }
  }

  /** A leftover order is below the minimum of every machine it is not too wide for. */
  lemma LeftBelowMinimum(orders: seq<Order>, machines: seq<LoadedMachine>, p: Profile)
    requires DistinctIds(orders) && DistinctMachines(machines) && p.width.Some? && p in PlanAll(orders, machines).leftover
    requires forall m :: m in machines ==> m.machine.active
    ensures forall m :: m in machines && Fits(m.machine, p.signature) && p.width.value <= m.machine.maxWidth
                        ==> p.width.value < m.machine.minWidth
  {
    forall m | m in machines && Fits(m.machine, p.signature) && p.width.value <= m.machine.maxWidth
      ensures p.width.value < m.machine.minWidth
    {
      NothingSchedulableDropped(orders, machines, p, m);
    }
  }

  // ----- planning again -----

  lemma {:induction false} ExhaustedGroupsStayIdle(
    states: States, left: seq<Profile>, keys: seq<GroupKey>, byCount: bool)
    requires Ready(left) && Weighed(states, left, byCount) && Keyed(states)
    requires forall k :: k in keys ==> Exhausted(states, left, k)
    ensures var out := PlanGroups(states, left, keys, byCount); out.tasks == [] && out.states == states
  {
    if keys != [] {
      var n := |keys| - 1;
      ExhaustedGroupsStayIdle(states, left, keys[..n], byCount);
      GroupReady(states, left, keys[n], byCount);
      assert Exhausted(states, left, keys[n]);
    }
  }

  /** Planning the leftover orders again on the same machines plans nothing: one pass is enough. */
  lemma SecondPassFindsNothing(orders: seq<Order>, machines: seq<LoadedMachine>)
    requires DistinctIds(orders) && DistinctMachines(machines)
    ensures var again := OrdersOf(Left(orders, machines));
            DistinctIds(again) && Tasks(again, machines) == []
  {
    var left := Left(orders, machines);
    var leftover := PlanAll(orders, machines).leftover;
    var again := OrdersOf(left);
    LeftDistinct(orders, machines);
    PlanLeftFrom(orders, machines);
    FilterMembers(LacksWidth, ProfilesOf(orders));
    ProfileMembers(orders);
    ProperProfiles(left);
    FilterAppend(HasWidth, Filter(LacksWidth, ProfilesOf(orders)), leftover);
    NothingKept(HasWidth, Filter(LacksWidth, ProfilesOf(orders)));
    FilterAll(HasWidth, leftover);
    assert Filter(HasWidth, ProfilesOf(again)) == leftover;
    InputsReady(again, machines);
    forall k | k in KeysOf(leftover)
      ensures Exhausted(StatesOf(machines), leftover, k)
    {
      PlanExhausts(orders, machines, k);
    }
    ExhaustedGroupsStayIdle(StatesOf(machines), leftover, KeysOf(leftover), ByTaskCount(again, machines));
  }

  // ----- the order in which machines are listed -----

  /** Listing the machines differently changes neither the tasks nor the leftover orders nor the reasons. */
  lemma MachineOrderIrrelevant(orders: seq<Order>, a: seq<LoadedMachine>, b: seq<LoadedMachine>)
    requires DistinctIds(orders) && DistinctMachines(a) && DistinctMachines(b)
    requires multiset(a) == multiset(b)
    ensures Tasks(orders, a) == Tasks(orders, b) && Left(orders, a) == Left(orders, b)
    ensures WithReasons(Left(orders, a), a) == WithReasons(Left(orders, b), b)
  {
    SameElements(a, b);
    assert StatesOf(a) == StatesOf(b);
    assert ByTaskCount(orders, a) == ByTaskCount(orders, b);
  }
}
