/** What the planner guarantees of every plan it makes. */
module PlannerProperties {
  import opened Sequences
  import opened Records
  import opened ProductionRules
  import opened MachineStates
  import opened Packer
  import opened Planner

  function AllOrders(tasks: seq<PlannedTask>): seq<Order> {
    if tasks == [] then [] else AllOrders(tasks[..|tasks| - 1]) + tasks[|tasks| - 1].orders
  }

  lemma {:induction false} AllOrdersAppend(a: seq<PlannedTask>, b: seq<PlannedTask>)
    ensures AllOrders(a + b) == AllOrders(a) + AllOrders(b)
  {
    if b == [] {
      assert a + b == a;
    } else {
      var n := |b| - 1;
      AllOrdersAppend(a, b[..n]);
      var whole := a + b;
      assert whole[..|whole| - 1] == a + b[..n] && whole[|whole| - 1] == b[n];
      assert AllOrders(whole) == AllOrders(a + b[..n]) + b[n].orders;
      assert AllOrders(b) == AllOrders(b[..n]) + b[n].orders;
    }
  }

  /** The machines behind two sets of states are the same. */
  ghost predicate SameMachines(s: States, t: States) {
    s.Keys == t.Keys && forall id :: id in s ==> s[id].machine == t[id].machine
  }

  /** Orders of one group: one signature and unit kind, and nothing missing if there are several. */
  ghost predicate Alike(ps: seq<Profile>) {
    && (forall p, q :: p in ps && q in ps ==> p.signature == q.signature && IsMetre(p) == IsMetre(q))
    && (|ps| > 1 ==> forall p :: p in ps ==> CompleteForMerge(p.signature))
  }

  ghost predicate Proper(ps: seq<Profile>) {
    forall p :: p in ps ==> p == ProfileOf(p.order)
  }

  // ----- conservation -----

  lemma {:induction false} PickAsFilter(ps: seq<Profile>, s: set<nat>, keep: Profile -> bool)
    requires forall k :: 0 <= k < |ps| ==> (keep(ps[k]) <==> k in s)
    ensures Pick(ps, s) == Filter(keep, ps)
  {
    if ps != [] {
      PickAsFilter(ps[..|ps| - 1], s, keep);
    }
  }

  /** Selecting by position and selecting by order id are the same thing. */
  lemma PickById(ps: seq<Profile>, s: set<nat>, ids: seq<Id>)
    requires DistinctOrders(ps)
    requires forall k :: 0 <= k < |ps| && k in s ==> ps[k].order.id in ids
    requires forall id :: id in ids ==> exists k :: 0 <= k < |ps| && k in s && ps[k].order.id == id
    ensures Pick(ps, s) == Filter((p: Profile) => p.order.id in ids, ps)
  {
    PickAsFilter(ps, s, (p: Profile) => p.order.id in ids);
  }

  /** A filter and its complement share out the orders. */
  lemma {:induction false} OrdersSplit(keep: Profile -> bool, drop: Profile -> bool, ps: seq<Profile>)
    requires forall p :: p in ps ==> (keep(p) <==> !drop(p))
    ensures multiset(OrdersOf(Filter(keep, ps))) + multiset(OrdersOf(Filter(drop, ps))) == multiset(OrdersOf(ps))
  {
    if ps != [] {
      var n := |ps| - 1;
      OrdersSplit(keep, drop, ps[..n]);
      assert OrdersOf(ps) == OrdersOf(ps[..n]) + [ps[n].order];
      if keep(ps[n]) {
        OrdersOfSnoc(Filter(keep, ps[..n]), ps[n]);
        assert Filter(drop, ps) == Filter(drop, ps[..n]);
      } else {
        OrdersOfSnoc(Filter(drop, ps[..n]), ps[n]);
        assert Filter(keep, ps) == Filter(keep, ps[..n]);
      }
    }
  }

  lemma OrdersOfSnoc(ps: seq<Profile>, p: Profile)
    ensures OrdersOf(ps + [p]) == OrdersOf(ps) + [p.order]
  {
  }

  lemma BatchAndRest(remaining: seq<Profile>, m: Machine)
    requires Ready(remaining)
    ensures var batch := Select(remaining, m);
            multiset(OrdersOf(batch)) + multiset(OrdersOf(Rest(remaining, batch))) == multiset(OrdersOf(remaining))
  {
    var batch := Select(remaining, m);
    var ids := OrderIds(OrdersOf(batch));
    PickedIds(remaining, Best(Widths(remaining), m.minWidth, m.maxWidth));
    OrdersSplit((p: Profile) => p.order.id in ids, (p: Profile) => p.order.id !in ids, remaining);
  }

  lemma PickedIds(ps: seq<Profile>, s: set<nat>)
    requires DistinctOrders(ps)
    ensures var ids := OrderIds(OrdersOf(Pick(ps, s))); Pick(ps, s) == Filter((p: Profile) => p.order.id in ids, ps)
  {
    var batch := Pick(ps, s);
    var ids := OrderIds(OrdersOf(batch));
    forall k | 0 <= k < |ps| && k in s
      ensures ps[k].order.id in ids
    {
      assert ps[k] in batch;
      var j :| 0 <= j < |batch| && batch[j] == ps[k];
      assert ids[j] == ps[k].order.id;
    }
    forall id | id in ids
      ensures exists k :: 0 <= k < |ps| && k in s && ps[k].order.id == id
    {
      var j :| 0 <= j < |ids| && ids[j] == id;
      assert batch[j] in batch;
    }
    PickById(ps, s, ids);
  }

  // ----- one step of a group -----

  /** The planner's next step on a group some machine can serve. */
  datatype Step = Step(id: Id, batch: seq<Profile>, task: PlannedTask, states: States, rest: seq<Profile>)

  ghost predicate IsStep(states: States, remaining: seq<Profile>, byCount: bool, s: Step)
    requires Ready(remaining) && Weighed(states, remaining, byCount) && Keyed(states)
  {
    && s.id in states && remaining != []
    && Compatible(states[s.id].machine, remaining[0].signature)
    && s.batch == Select(remaining, states[s.id].machine) && s.batch != []
    && s.task == TaskOf(states[s.id].machine, s.batch)
    && s.states == Assigned(states, s.id, remaining[0].signature, s.task)
    && s.rest == Rest(remaining, s.batch) && |s.rest| < |remaining|
    && (forall p :: p in s.rest ==> p in remaining)
    && Ready(s.rest) && Weighed(s.states, s.rest, byCount) && Keyed(s.states) && SameMachines(states, s.states)
  }

  lemma GroupStep(states: States, remaining: seq<Profile>, byCount: bool) returns (s: Step)
    requires Ready(remaining) && Weighed(states, remaining, byCount) && Keyed(states)
    requires remaining != [] && Candidates(states, remaining) != {}
    ensures IsStep(states, remaining, byCount, s) && s.id == Chosen(states, remaining, byCount)
    ensures var out, next := PlanGroup(states, remaining, byCount), PlanGroup(s.states, s.rest, byCount);
            out == Outcome([s.task] + next.tasks, next.leftover, next.states)
  {
    var id := Chosen(states, remaining, byCount);
    var m := states[id].machine;
    var batch := Select(remaining, m);
    SelectFacts(remaining, m);
    BatchWeighed(states, remaining, byCount, m);
    RestFacts(remaining, batch);
    var task := TaskOf(m, batch);
    s := Step(id, batch, task, Assigned(states, id, remaining[0].signature, task), Rest(remaining, batch));
  }

  lemma AllOrdersCons(t: PlannedTask, tasks: seq<PlannedTask>)
    ensures multiset(AllOrders([t] + tasks)) == multiset(t.orders) + multiset(AllOrders(tasks))
  {
    AllOrdersAppend([t], tasks);
    assert [t][..0] == [];
    assert AllOrders([t]) == [] + t.orders;
  }

  lemma {:induction false} GroupConserves(states: States, remaining: seq<Profile>, byCount: bool)
    requires Ready(remaining) && Weighed(states, remaining, byCount) && Keyed(states)
    ensures var out := PlanGroup(states, remaining, byCount);
            multiset(AllOrders(out.tasks)) + multiset(OrdersOf(out.leftover)) == multiset(OrdersOf(remaining))
    decreases |remaining|
  {
    if remaining != [] && Candidates(states, remaining) != {} {
      var s := GroupStep(states, remaining, byCount);
      BatchAndRest(remaining, states[s.id].machine);
      GroupConserves(s.states, s.rest, byCount);
      AllOrdersCons(s.task, PlanGroup(s.states, s.rest, byCount).tasks);
    }
  }

  lemma {:induction false} GroupFrame(states: States, remaining: seq<Profile>, byCount: bool)
    requires Ready(remaining) && Weighed(states, remaining, byCount) && Keyed(states)
    ensures var out := PlanGroup(states, remaining, byCount);
            (forall p :: p in out.leftover ==> p in remaining) && SameMachines(states, out.states)
    decreases |remaining|
  {
    if remaining != [] && Candidates(states, remaining) != {} {
      var s := GroupStep(states, remaining, byCount);
      GroupFrame(s.states, s.rest, byCount);
    }
  }

  // ----- every planned task is valid -----

  /** The task's machine exists, is the one it names, and accepts the orders with the stated width and weight. */
  ghost predicate TaskValid(states: States, t: PlannedTask) {
    && t.machineId in states
    && ValidateBatch(states[t.machineId].machine, t.orders) == Ok(t.totalWidth)
    && t.totalKg == BatchKg(t.orders)
    && t.orders != []
  }

  lemma AlikeAcceptable(m: Machine, remaining: seq<Profile>, batch: seq<Profile>)
    requires Alike(remaining) && remaining != [] && Compatible(m, remaining[0].signature)
    requires (forall p :: p in batch ==> p in remaining && p.width.Some?) && |batch| <= |remaining| && batch != []
    requires m.minWidth <= TotalWidth(batch) <= m.maxWidth
    ensures Acceptable(m, batch)
  {
    assert remaining[0] in remaining;
    assert forall p :: p in batch ==> p.signature == remaining[0].signature;
  }

  lemma ProperProfiles(ps: seq<Profile>)
    requires Proper(ps)
    ensures ProfilesOf(OrdersOf(ps)) == ps
  {
    forall k | 0 <= k < |ps|
      ensures ProfileOf(ps[k].order) == ps[k]
    {
      assert ps[k] in ps;
    }
  }

  lemma TaskAccepted(m: Machine, remaining: seq<Profile>)
    requires Ready(remaining) && Alike(remaining) && Proper(remaining) && remaining != []
    requires Compatible(m, remaining[0].signature) && Select(remaining, m) != []
    ensures ValidateBatch(m, OrdersOf(Select(remaining, m))) == Ok(TotalWidth(Select(remaining, m)))
  {
    var batch := Select(remaining, m);
    SelectFacts(remaining, m);
    AlikeAcceptable(m, remaining, batch);
    AcceptedExactlyWhen(m, batch);
    ProperProfiles(batch);
  }

  lemma StepValid(states: States, remaining: seq<Profile>, byCount: bool, s: Step)
    requires Ready(remaining) && Weighed(states, remaining, byCount) && Keyed(states)
    requires Alike(remaining) && Proper(remaining) && IsStep(states, remaining, byCount, s)
    ensures TaskValid(states, s.task)
  {
    TaskAccepted(states[s.id].machine, remaining);
  }

  lemma AlikePart(ps: seq<Profile>, part: seq<Profile>)
    requires Alike(ps) && |part| <= |ps| && forall p :: p in part ==> p in ps
    ensures Alike(part)
  {
    forall p, q | p in part && q in part
      ensures p.signature == q.signature && IsMetre(p) == IsMetre(q)
    {
      assert p in ps && q in ps;
    }
  }

  lemma ProperPart(ps: seq<Profile>, part: seq<Profile>)
    requires Proper(ps) && forall p :: p in part ==> p in ps
    ensures Proper(part)
  {
  }

  lemma TasksStayValid(s: States, t: States, first: PlannedTask, rest: seq<PlannedTask>)
    requires SameMachines(s, t) && TaskValid(s, first) && forall k :: k in rest ==> TaskValid(t, k)
    ensures forall k :: k in [first] + rest ==> TaskValid(s, k)
  {
  }

  lemma {:induction false} GroupRefines(states: States, remaining: seq<Profile>, byCount: bool)
    requires Ready(remaining) && Weighed(states, remaining, byCount) && Keyed(states)
    requires Alike(remaining) && Proper(remaining)
    ensures forall t :: t in PlanGroup(states, remaining, byCount).tasks ==> TaskValid(states, t)
    decreases |remaining|
  {
    if remaining != [] && Candidates(states, remaining) != {} {
      var s := GroupStep(states, remaining, byCount);
      StepValid(states, remaining, byCount, s);
      AlikePart(remaining, s.rest);
      ProperPart(remaining, s.rest);
      GroupRefines(s.states, s.rest, byCount);
      TasksStayValid(states, s.states, s.task, PlanGroup(s.states, s.rest, byCount).tasks);
    }
  }

  // ----- nothing that could still be planned is left -----

  lemma CandidatesFromMachines(s: States, t: States, remaining: seq<Profile>)
    requires SameMachines(s, t) && remaining != []
    ensures Candidates(s, remaining) == Candidates(t, remaining)
  {
  }

  lemma {:induction false} GroupExhausted(states: States, remaining: seq<Profile>, byCount: bool)
    requires Ready(remaining) && Weighed(states, remaining, byCount) && Keyed(states)
    ensures var left := PlanGroup(states, remaining, byCount).leftover;
            left != [] ==> Candidates(states, left) == {}
    decreases |remaining|
  {
    if remaining != [] && Candidates(states, remaining) != {} {
      var s := GroupStep(states, remaining, byCount);
      GroupExhausted(s.states, s.rest, byCount);
      var left := PlanGroup(states, remaining, byCount).leftover;
      if left != [] {
        CandidatesFromMachines(states, s.states, left);
      }
    }
  }

  // ----- loads and counts -----

  function TasksOn(tasks: seq<PlannedTask>, id: Id): seq<PlannedTask> {
    Filter((t: PlannedTask) => t.machineId == id, tasks)
  }

  function TaskKg(t: PlannedTask): real {
    if t.totalKg.Some? then t.totalKg.value else 0.0
  }

  /** A machine's books: its count and, when every weight is known, its load, after the given tasks. */
  ghost predicate Booked(before: View, after: View, tasks: seq<PlannedTask>) {
    && after.machine == before.machine
    && after.taskCount == before.taskCount + |tasks|
    && (after.load.Some? <==> before.load.Some? && forall t :: t in tasks ==> t.totalKg.Some?)
    && (after.load.Some? ==> after.load.value == before.load.value + SumBy(TaskKg, tasks))
    && (tasks == [] ==> after == before)
    && (tasks != [] ==> after.lastWidth == Some(tasks[|tasks| - 1].totalWidth))
  }

  lemma BookedCompose(a: View, b: View, c: View, first: seq<PlannedTask>, second: seq<PlannedTask>)
    requires Booked(a, b, first) && Booked(b, c, second)
    ensures Booked(a, c, first + second)
  {
    SumByAppend(TaskKg, first, second);
    assert forall t :: t in first + second <==> t in first || t in second;
    if second == [] {
      assert first + second == first;
    }
  }

  ghost predicate AllBooked(s: States, t: States, tasks: seq<PlannedTask>) {
    s.Keys == t.Keys && forall id :: id in s ==> Booked(s[id], t[id], TasksOn(tasks, id))
  }

  lemma AllBookedCompose(a: States, b: States, c: States, first: seq<PlannedTask>, second: seq<PlannedTask>)
    requires AllBooked(a, b, first) && AllBooked(b, c, second)
    ensures AllBooked(a, c, first + second)
  {
    forall id | id in a
      ensures Booked(a[id], c[id], TasksOn(first + second, id))
    {
      FilterAppend((t: PlannedTask) => t.machineId == id, first, second);
      BookedCompose(a[id], b[id], c[id], TasksOn(first, id), TasksOn(second, id));
    }
  }

  lemma OneBooked(states: States, id: Id, signature: Signature, task: PlannedTask)
    requires id in states && task.machineId == id
    ensures AllBooked(states, Assigned(states, id, signature, task), [task])
  {
    forall j | j in states
      ensures Booked(states[j], Assigned(states, id, signature, task)[j], TasksOn([task], j))
    {
      assert [task][..0] == [] && TasksOn([], j) == [];
      if j == id {
        assert TasksOn([task], j) == [task];
        assert SumBy(TaskKg, [task]) == SumBy(TaskKg, []) + TaskKg(task);
      } else {
        assert TasksOn([task], j) == [];
      }
    }
  }

  lemma {:induction false} GroupBooked(states: States, remaining: seq<Profile>, byCount: bool)
    requires Ready(remaining) && Weighed(states, remaining, byCount) && Keyed(states)
    ensures var out := PlanGroup(states, remaining, byCount); AllBooked(states, out.states, out.tasks)
    decreases |remaining|
  {
    if remaining != [] && Candidates(states, remaining) != {} {
      var s := GroupStep(states, remaining, byCount);
      OneBooked(states, s.id, remaining[0].signature, s.task);
      GroupBooked(s.states, s.rest, byCount);
      var next := PlanGroup(s.states, s.rest, byCount);
      AllBookedCompose(states, s.states, next.states, [s.task], next.tasks);
    }
  }
}
