/** Which machine gets the next batch of a group: the one that changes least, then wastes least, then is least loaded. */
module Changeovers {
  import opened Sequences
  import opened Records
  import opened ProductionRules
  import opened MachineStates
  import opened Packer
  import opened Planner
  import opened PlannerProperties
  import opened PlanTheorems

  // ----- what a machine would keep -----

  predicate KeepsMaterial(v: View, s: Signature) { v.lastSignature.Some? ==> v.lastSignature.value.material == s.material }

  predicate KeepsCategory(v: View, s: Signature) { v.lastSignature.Some? ==> v.lastSignature.value.categoryId == s.categoryId }

  predicate KeepsThickness(v: View, s: Signature) { v.lastSignature.Some? ==> v.lastSignature.value.thickness == s.thickness }

  predicate KeepsPattern(v: View, s: Signature) {
    v.lastSignature.Some? ==> CaseFold(v.lastSignature.value.pattern) == CaseFold(s.pattern)
  }

  predicate KeepsWidth(v: View, width: real) { v.lastWidth.Some? ==> v.lastWidth.value == width }

  /** A machine's offer for a group with signature s: the batch it would take. */
  datatype Offer = Offer(view: View, batch: seq<Profile>)

  ghost function OfferOf(states: States, remaining: seq<Profile>, id: Id): Offer
    requires id in states
  {
    Offer(states[id], Select(remaining, states[id].machine))
  }

  /** What the offer keeps, in order of importance. */
  ghost function KeptBy(o: Offer, s: Signature): seq<bool> {
    [KeepsMaterial(o.view, s), KeepsCategory(o.view, s), KeepsThickness(o.view, s), KeepsPattern(o.view, s),
     KeepsWidth(o.view, TotalWidth(o.batch))]
  }

  /** The share of the machine's width that the batch leaves unused, in millionths. */
  ghost function Unused(o: Offer): int
    requires o.view.machine.maxWidth > 0.0
  {
    Round6((o.view.machine.maxWidth - TotalWidth(o.batch)) / o.view.machine.maxWidth)
  }

  /** The machine's load with the batch: tasks when they are counted, otherwise kilograms. */
  ghost function LoadWith(o: Offer, byCount: bool): real {
    if byCount then (o.view.taskCount + 1) as real
    else (if o.view.load.Some? then o.view.load.value else 0.0) + SumBy(KgValue, OrdersOf(o.batch))
  }

  lemma KeyOfView(o: Offer, s: Signature, byCount: bool)
    requires o.view.machine.maxWidth > 0.0 && (!byCount ==> o.view.load.Some? && BatchKg(OrdersOf(o.batch)).Some?)
    ensures var key := ChangeoverKey(o.view, s, TotalWidth(o.batch), BatchKg(OrdersOf(o.batch)), byCount);
            && |key.flags| == 5
            && (forall k :: 0 <= k < 5 ==> key.flags[k] <= 1 && (key.flags[k] == 0 <==> KeptBy(o, s)[k]))
            && key.unused == Unused(o) && key.load == LoadWith(o, byCount)
            && key.name == o.view.machine.name && key.id == o.view.machine.id
  {
  }

  /** What a changeover key is made of, for a machine that makes the offer. */
  lemma KeyOfOffer(states: States, remaining: seq<Profile>, byCount: bool, id: Id)
    requires Ready(remaining) && remaining != [] && Weighed(states, remaining, byCount)
    requires id in Candidates(states, remaining)
    ensures var o := OfferOf(states, remaining, id); var key := CandidateKey(states, remaining, byCount, id);
            && o.view.machine.maxWidth > 0.0
            && |key.flags| == 5
            && (forall k :: 0 <= k < 5 ==> key.flags[k] <= 1 && (key.flags[k] == 0 <==> KeptBy(o, remaining[0].signature)[k]))
            && key.unused == Unused(o) && key.load == LoadWith(o, byCount)
            && key.name == o.view.machine.name && key.id == o.view.machine.id
  {
    SelectFacts(remaining, states[id].machine);
    BatchWeighed(states, remaining, byCount, states[id].machine);
    KeyOfView(OfferOf(states, remaining, id), remaining[0].signature, byCount);
  }

  /** The offers keep the same of the first n properties. */
  ghost predicate TiedOn(a: Offer, b: Offer, s: Signature, n: nat)
    requires n <= 5
  {
    forall k :: 0 <= k < n ==> KeptBy(a, s)[k] == KeptBy(b, s)[k]
  }

  /** Of the earliest property in which the offers differ, a is the one that keeps it. */
  ghost predicate KeepsMore(a: Offer, b: Offer, s: Signature) {
    forall n: nat :: n < 5 && TiedOn(a, b, s, n) && KeptBy(b, s)[n] ==> KeptBy(a, s)[n]
  }

  lemma FlagsDecide(x: seq<nat>, y: seq<nat>, n: nat)
    requires |x| == |y| == 5 && n < 5 && (LexLess(x, y) || x == y) && forall k :: 0 <= k < n ==> x[k] == y[k]
    ensures x[n] <= y[n]
  {
    if x != y {
      LexLessMeans(x, y);
      var k: nat :| DiffersAt(x, y, k);
      if n < k {
        assert x[..k][n] == y[..k][n];
      }
    }
  }

  /** The preference between two offers, property by property. */
  ghost predicate Preferred(a: Offer, b: Offer, s: Signature, byCount: bool)
    requires a.view.machine.maxWidth > 0.0 && b.view.machine.maxWidth > 0.0
  {
    && KeepsMore(a, b, s)
    && (TiedOn(a, b, s, 5) ==> Unused(a) <= Unused(b))
    && (TiedOn(a, b, s, 5) && Unused(a) == Unused(b) ==> LoadWith(a, byCount) <= LoadWith(b, byCount))
    && (TiedOn(a, b, s, 5) && Unused(a) == Unused(b) && LoadWith(a, byCount) == LoadWith(b, byCount) ==>
          NameFirst(a.view.machine, b.view.machine))
  }

  /** By name, then by id. */
  ghost predicate NameFirst(a: Machine, b: Machine) {
    (exists k: nat :: DiffersAt(a.name, b.name, k)) || (a.name == b.name && a.id <= b.id)
  }

  lemma LessIsPreferred(a: Offer, b: Offer, s: Signature, byCount: bool, x: Key, y: Key)
    requires a.view.machine.maxWidth > 0.0 && b.view.machine.maxWidth > 0.0
    requires |x.flags| == |y.flags| == 5 && KeyLess(x, y)
    requires forall k :: 0 <= k < 5 ==> x.flags[k] <= 1 && (x.flags[k] == 0 <==> KeptBy(a, s)[k])
    requires forall k :: 0 <= k < 5 ==> y.flags[k] <= 1 && (y.flags[k] == 0 <==> KeptBy(b, s)[k])
    requires x.unused == Unused(a) && y.unused == Unused(b)
    requires x.load == LoadWith(a, byCount) && y.load == LoadWith(b, byCount)
    requires x.name == a.view.machine.name && y.name == b.view.machine.name
    requires x.id == a.view.machine.id && y.id == b.view.machine.id
    ensures Preferred(a, b, s, byCount)
  {
    forall n: nat | n < 5 && TiedOn(a, b, s, n) && KeptBy(b, s)[n]
      ensures KeptBy(a, s)[n]
    {
      FlagsDecide(x.flags, y.flags, n);
    }
    if TiedOn(a, b, s, 5) {
      assert x.flags == y.flags;
      LexIrreflexive(x.flags);
      LexLessMeans(x.name, y.name);
    }
  }

  /** Every other candidate's offer is no better than the chosen machine's. */
  lemma ChosenKeepsMost(states: States, remaining: seq<Profile>, byCount: bool, j: Id)
    requires Ready(remaining) && remaining != [] && Weighed(states, remaining, byCount) && Keyed(states)
    requires j in Candidates(states, remaining)
    ensures var c := Chosen(states, remaining, byCount);
            && c in Candidates(states, remaining)
            && states[c].machine.maxWidth > 0.0 && states[j].machine.maxWidth > 0.0
            && Preferred(OfferOf(states, remaining, c), OfferOf(states, remaining, j), remaining[0].signature, byCount)
  {
    var c := Chosen(states, remaining, byCount);
    KeyOfOffer(states, remaining, byCount, c);
    KeyOfOffer(states, remaining, byCount, j);
    if j != c {
      LessIsPreferred(OfferOf(states, remaining, c), OfferOf(states, remaining, j), remaining[0].signature, byCount,
                      CandidateKey(states, remaining, byCount, c), CandidateKey(states, remaining, byCount, j));
    }
  }

  /** In particular no candidate that keeps the material loses to one that changes it. */
  lemma MaterialIsKept(states: States, remaining: seq<Profile>, byCount: bool, j: Id)
    requires Ready(remaining) && remaining != [] && Weighed(states, remaining, byCount) && Keyed(states)
    requires j in Candidates(states, remaining)
    requires states[j].lastSignature.Some? ==> states[j].lastSignature.value.material == remaining[0].signature.material
    ensures var v := states[Chosen(states, remaining, byCount)];
            v.lastSignature.Some? ==> v.lastSignature.value.material == remaining[0].signature.material
  {
    var c := Chosen(states, remaining, byCount);
    ChosenKeepsMost(states, remaining, byCount, j);
    var a, b := OfferOf(states, remaining, c), OfferOf(states, remaining, j);
    assert TiedOn(a, b, remaining[0].signature, 0) && KeptBy(b, remaining[0].signature)[0];
  }

  /** The first task of a group is the preferred machine's: its whole batch, ahead of the plan for what remains. */
  lemma FirstTaskKeepsMost(states: States, remaining: seq<Profile>, byCount: bool, j: Id)
    requires Ready(remaining) && remaining != [] && Weighed(states, remaining, byCount) && Keyed(states)
    requires j in Candidates(states, remaining)
    ensures var tasks := PlanGroup(states, remaining, byCount).tasks;
            && tasks != []
            && var c := tasks[0].machineId;
               && c in states && states[c].machine.maxWidth > 0.0 && states[j].machine.maxWidth > 0.0
               && tasks[0].orders == OrdersOf(Select(remaining, states[c].machine))
               && Preferred(OfferOf(states, remaining, c), OfferOf(states, remaining, j), remaining[0].signature, byCount)
  {
    var s := GroupStep(states, remaining, byCount);
    ChosenKeepsMost(states, remaining, byCount, j);
  }

  // ----- what a machine remembers -----

  /** A machine's last signature is that of the last task it received, read off the task's first order. */
  ghost predicate Recalls(before: View, after: View, tasks: seq<PlannedTask>, sig: Order -> Signature) {
    if tasks == [] then after.lastSignature == before.lastSignature
    else
      var last := tasks[|tasks| - 1];
      last.orders != [] && after.lastSignature == Some(sig(last.orders[0]))
  }

  ghost predicate AllRecall(s: States, t: States, tasks: seq<PlannedTask>, sig: Order -> Signature) {
    s.Keys == t.Keys && forall id :: id in s ==> Recalls(s[id], t[id], TasksOn(tasks, id), sig)
  }

  lemma AllRecallCompose(a: States, b: States, c: States, first: seq<PlannedTask>, second: seq<PlannedTask>, sig: Order -> Signature)
    requires AllRecall(a, b, first, sig) && AllRecall(b, c, second, sig)
    ensures AllRecall(a, c, first + second, sig)
  {
    forall id | id in a
      ensures Recalls(a[id], c[id], TasksOn(first + second, id), sig)
    {
      FilterAppend((t: PlannedTask) => t.machineId == id, first, second);
      assert TasksOn(first, id) + [] == TasksOn(first, id);
    }
  }

  lemma OneRecalls(states: States, id: Id, signature: Signature, task: PlannedTask, sig: Order -> Signature)
    requires id in states && task.machineId == id && task.orders != [] && sig(task.orders[0]) == signature
    ensures AllRecall(states, Assigned(states, id, signature, task), [task], sig)
  {
    forall j | j in states
      ensures TasksOn([task], j) == if j == id then [task] else []
    {
      assert [task][..0] == [] && TasksOn([], j) == [];
    }
  }

  ghost predicate Signed(ps: seq<Profile>, sig: Order -> Signature) { forall p :: p in ps ==> sig(p.order) == p.signature }

  lemma {:induction false} GroupRecalls(states: States, remaining: seq<Profile>, byCount: bool, sig: Order -> Signature)
    requires Ready(remaining) && Weighed(states, remaining, byCount) && Keyed(states)
    requires Signed(remaining, sig) && forall p, q :: p in remaining && q in remaining ==> p.signature == q.signature
    ensures var out := PlanGroup(states, remaining, byCount); AllRecall(states, out.states, out.tasks, sig)
    decreases |remaining|
  {
    if remaining != [] && Candidates(states, remaining) != {} {
      var s := GroupStep(states, remaining, byCount);
      SelectFacts(remaining, states[s.id].machine);
      assert s.batch[0] in s.batch && remaining[0] in remaining;
      OneRecalls(states, s.id, remaining[0].signature, s.task, sig);
      GroupRecalls(s.states, s.rest, byCount, sig);
      var next := PlanGroup(s.states, s.rest, byCount);
      AllRecallCompose(states, s.states, next.states, [s.task], next.tasks, sig);
    }
  }

  lemma {:induction false} GroupsRecall(states: States, ps: seq<Profile>, keys: seq<GroupKey>, byCount: bool, sig: Order -> Signature)
    requires Ready(ps) && Weighed(states, ps, byCount) && Keyed(states) && Signed(ps, sig)
    ensures var out := PlanGroups(states, ps, keys, byCount); AllRecall(states, out.states, out.tasks, sig)
  {
    if keys != [] {
      var n := |keys| - 1;
      var before := PlanGroups(states, ps, keys[..n], byCount);
      GroupsRecall(states, ps, keys[..n], byCount, sig);
      GroupReady(before.states, ps, keys[n], byCount);
      GroupMembers(ps, keys[n]);
      GroupRecalls(before.states, GroupOf(ps, keys[n]), byCount, sig);
      var last := PlanGroup(before.states, GroupOf(ps, keys[n]), byCount);
      AllRecallCompose(states, before.states, last.states, before.tasks, last.tasks, sig);
    }
  }

  /** After planning, each machine's last signature is its initial one, or that of its last task's orders. */
  lemma PlanRecalls(orders: seq<Order>, machines: seq<LoadedMachine>, m: LoadedMachine)
    requires DistinctIds(orders) && DistinctMachines(machines) && m in machines
    ensures m.machine.id in PlanAll(orders, machines).states
    ensures Recalls(InitialView(m), PlanAll(orders, machines).states[m.machine.id],
                    TasksOn(Tasks(orders, machines), m.machine.id), (o: Order) => ProfileOf(o).signature)
  {
    var ps := Filter(HasWidth, ProfilesOf(orders));
    PlanInputs(orders, machines);
    GroupsRecall(StatesOf(machines), ps, KeysOf(ps), ByTaskCount(orders, machines), (o: Order) => ProfileOf(o).signature);
    assert StatesOf(machines)[m.machine.id] == InitialView(m);
  }

  // ----- the measures -----

  /** Rounding gives the nearest millionth, and the even one of two that are equally near. */
  lemma NearestMillionth(x: real)
    ensures var r := Round6(x) as real; r - 0.5 <= x * 1000000.0 <= r + 0.5
    ensures var r := Round6(x) as real; x * 1000000.0 == r - 0.5 || x * 1000000.0 == r + 0.5 ==> Round6(x) % 2 == 0
  {
  }

  /** The same weight in tonnes, kilograms and grams; nothing else has a weight. */
  lemma WeightIgnoresUnit(t: Order, kg: Order, g: Order, other: Order)
    requires t.content.unit == Tonne && kg.content.unit == Kilogram && g.content.unit == Gram
    requires kg.content.quantity == 1000.0 * t.content.quantity && g.content.quantity == 1000.0 * kg.content.quantity
    requires other.content.unit == Metre || other.content.unit.OtherUnit?
    ensures QuantityKg(t) == QuantityKg(kg) == QuantityKg(g) == Some(kg.content.quantity)
    ensures QuantityKg(other) == None
  {
  }

  predicate HasWeight(o: Order) { o.content.unit == Tonne || o.content.unit == Kilogram || o.content.unit == Gram }

  /** A batch weighs what its orders weigh together, unless one of them is not sold by weight. */
  lemma BatchWeight(orders: seq<Order>)
    ensures BatchKg(orders).Some? <==> forall o :: o in orders ==> HasWeight(o)
    ensures BatchKg(orders).Some? ==> BatchKg(orders).value == SumBy(KgValue, orders)
  {
  }

  lemma {:induction false} QueuedMembers(tasks: seq<LoadedTask>, o: Order)
    ensures o in OrdersOfTasks(tasks) <==> exists t :: t in tasks && o in t.orders
  {
    if tasks != [] {
      var n := |tasks| - 1;
      QueuedMembers(tasks[..n], o);
      assert forall t :: t in tasks <==> t in tasks[..n] || t == tasks[n];
    }
  }

  /** The order is one of an unfinished task of the machine. */
  predicate Awaits(m: LoadedMachine, o: Order) { exists t :: t in m.tasks && t.task.status != TaskDone && o in t.orders }

  lemma QueuedIs(m: LoadedMachine, o: Order)
    ensures o in QueuedOrders(m) <==> Awaits(m, o)
  {
    FilterMembers((t: LoadedTask) => t.task.status != TaskDone, m.tasks);
    QueuedMembers(ActiveTasks(m), o);
  }

  /** Tasks are counted exactly when an order to plan, or one of an unfinished task, is not sold by weight. */
  lemma CountedExactlyWhen(orders: seq<Order>, machines: seq<LoadedMachine>)
    ensures ByTaskCount(orders, machines)
            <==> || (exists o :: o in orders && !HasWeight(o))
                 || (exists m, o :: m in machines && Awaits(m, o) && !HasWeight(o))
  {
    forall m, o
      ensures o in QueuedOrders(m) <==> Awaits(m, o)
    {
      QueuedIs(m, o);
    }
  }

  /** Two orders are planned together exactly when nothing tells them apart and nothing of their signature is missing. */
  lemma TogetherExactlyWhen(p: Profile, q: Profile)
    requires p.order.id != q.order.id
    ensures KeyOf(p) == KeyOf(q)
            <==> && p.signature == q.signature && p.signature.material.Some? && p.signature.thickness.Some?
                 && (p.order.content.unit == Metre <==> q.order.content.unit == Metre)
  {
  }

  /** Groups come in the order in which their first orders stand. */
  lemma {:induction false} FirstComeFirst(ps: seq<Profile>, i: nat, j: nat) returns (a: nat)
    requires i < j < |KeysOf(ps)|
    ensures a < |ps| && KeyOf(ps[a]) == KeysOf(ps)[i]
    ensures forall b :: 0 <= b <= a ==> KeyOf(ps[b]) != KeysOf(ps)[j]
  {
    var n := |ps| - 1;
    var front := ps[..n];
    if j < |KeysOf(front)| {
      a := FirstComeFirst(front, i, j);
    } else {
      assert KeysOf(front)[i] in KeysOf(front);
      var p :| p in front && KeyOf(p) == KeysOf(front)[i];
      a :| 0 <= a < |front| && front[a] == p;
      forall b | 0 <= b <= a
        ensures KeyOf(ps[b]) != KeysOf(ps)[j]
      {
        assert front[b] in front && KeyOf(front[b]) in KeysOf(front);
      }
    }
  }
}
