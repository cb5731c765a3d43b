/** The planner's main loop (planner.py, build_tasks), proved to produce the specified plan. */
module BuildTasks {
  import opened Sequences
  import opened Records
  import opened ProductionRules
  import opened MachineStates
  import opened Packer
  import opened Planner
  import opened PlannerProperties
  import opened BatchSelection

  // ----- machine states -----

  /** One machine while a plan is being made. */
  class MachineState {
    const machine: Machine
    var load: Option<real>
    var taskCount: nat
    var lastSignature: Option<Signature>
    var lastWidth: Option<real>

    function Value(): View
      reads this
    {
      View(machine, load, taskCount, lastSignature, lastWidth)
    }

    constructor (m: LoadedMachine)
      ensures Value() == InitialView(m)
    {
      var last := LastSignature(m);
      machine := m.machine;
      load := BatchKg(QueuedOrders(m));
      taskCount := |ActiveTasks(m)|;
      lastSignature := last.0;
      lastWidth := last.1;
    }

    method Take(signature: Signature, width: real, kg: Option<real>)
      modifies this
      ensures Value() == Loaded(old(Value()), signature, width, kg)
    {
      load := if load.Some? && kg.Some? then Some(load.value + kg.value) else None;
      taskCount := taskCount + 1;
      lastSignature := Some(signature);
      lastWidth := Some(width);
    }
  }

  /** The list of state objects stands for the map from machine ids to their values. */
  ghost predicate Represents(states: seq<MachineState>, st: States)
    reads states
  {
    && (forall i, j :: 0 <= i < j < |states| ==> states[i].machine.id != states[j].machine.id)
    && (forall i :: 0 <= i < |states| ==> states[i].machine.id in st && st[states[i].machine.id] == states[i].Value())
    && (forall id :: id in st ==> exists i :: 0 <= i < |states| && states[i].machine.id == id)
  }

  /** The object's fields are those a machine's queue leaves it with. */
  ghost predicate StartsAs(state: MachineState, m: LoadedMachine)
    reads state
  {
    state.Value() == InitialView(m)
  }

  method InitialState(m: LoadedMachine) returns (state: MachineState)
    ensures fresh(state) && StartsAs(state, m)
  {
    state := new MachineState(m);
  }

  ghost predicate ViewsOf(view: LoadedMachine -> View, machines: seq<LoadedMachine>, views: seq<View>) {
    |views| == |machines| && forall k :: 0 <= k < |views| ==> views[k] == view(machines[k])
  }

  lemma {:induction false} OneMoreView(view: LoadedMachine -> View, machines: seq<LoadedMachine>, i: nat, views: seq<View>, v: View)
    requires i < |machines| && ViewsOf(view, machines[..i], views) && v == view(machines[i])
    ensures ViewsOf(view, machines[..i + 1], views + [v])
  {
  }

  method InitialStates(machines: seq<LoadedMachine>) returns (states: seq<MachineState>)
    requires DistinctMachines(machines)
    ensures fresh(states) && Represents(states, StatesOf(machines))
  {
    states := [];
    ghost var views: seq<View> := [];
    for i := 0 to |machines|
      invariant |states| == |views| == i && fresh(states)
      invariant forall k :: 0 <= k < i ==> states[k].Value() == views[k]
      invariant ViewsOf(InitialView, machines[..i], views)
    {
      var state := InitialState(machines[i]);
      OneMoreView(InitialView, machines, i, views, state.Value());
      states, views := states + [state], views + [state.Value()];
    }
    assert machines[..|machines|] == machines;
    InitiallyRepresented(machines, states, views);
  }

  lemma InitiallyRepresented(machines: seq<LoadedMachine>, states: seq<MachineState>, views: seq<View>)
    requires DistinctMachines(machines) && |states| == |machines| && ViewsOf(InitialView, machines, views)
    requires forall k :: 0 <= k < |states| ==> states[k].Value() == views[k]
    ensures Represents(states, StatesOf(machines))
  {
    assert forall k :: 0 <= k < |states| ==> StartsAs(states[k], machines[k]);
    var st := StatesOf(machines);
    forall k | 0 <= k < |states|
      ensures states[k].machine.id == machines[k].machine.id
      ensures states[k].machine.id in st && st[states[k].machine.id] == states[k].Value()
    {
      StateOfMachine(machines, k);
      assert StartsAs(states[k], machines[k]);
      assert states[k].Value().machine == machines[k].machine;
    }
    forall id | id in st
      ensures exists k :: 0 <= k < |states| && states[k].machine.id == id
    {
      var k := MachineOfState(machines, id);
      assert StartsAs(states[k], machines[k]);
      assert states[k].machine.id == id;
    }
  }

  // ----- choosing a machine -----

  ghost function MachineIds(states: seq<MachineState>): (ids: seq<Id>)
    ensures |ids| == |states| && forall k :: 0 <= k < |ids| ==> ids[k] == states[k].machine.id
  {
    seq(|states|, k requires 0 <= k < |states| => states[k].machine.id)
  }

  /** The batch a machine would take and its changeover key, if it can serve the remaining orders at all. */
  method Evaluate(state: MachineState, remaining: seq<Profile>, byCount: bool, ghost st: States)
    returns (key: Option<Key>, batch: seq<Profile>, width: real)
    requires Ready(remaining) && remaining != [] && Weighed(st, remaining, byCount) && Keyed(st)
    requires state.machine.id in st && st[state.machine.id] == state.Value()
    ensures var keys := CandidateKeys(st, remaining, byCount);
            && (key.Some? <==> state.machine.id in keys)
            && (key.Some? ==> key.value == keys[state.machine.id])
    ensures key.Some? ==> batch == Select(remaining, state.machine) && width == TotalWidth(batch)
  {
    key, batch, width := None, [], 0.0;
    if Compatible(state.machine, remaining[0].signature) {
      batch, width := SelectBatch(remaining, state.machine);
      if batch != [] {
        SelectFacts(remaining, state.machine);
        BatchWeighed(st, remaining, byCount, state.machine);
        key := Some(ChangeoverKey(state.Value(), remaining[0].signature, width, BatchKg(OrdersOf(batch)), byCount));
      }
    }
  }

  method FindCandidate(states: seq<MachineState>, remaining: seq<Profile>, byCount: bool, ghost st: States)
    returns (found: Option<nat>, batch: seq<Profile>, width: real)
    requires Ready(remaining) && remaining != [] && Weighed(st, remaining, byCount) && Keyed(st)
    requires Represents(states, st)
    ensures found.None? <==> Candidates(st, remaining) == {}
    ensures found.Some? ==>
              && found.value < |states|
              && states[found.value].machine.id == Chosen(st, remaining, byCount)
              && batch == Select(remaining, states[found.value].machine)
              && width == TotalWidth(batch)
  {
    found, batch, width := None, [], 0.0;
    ghost var keys, ids := CandidateKeys(st, remaining, byCount), MachineIds(states);
    var least := Key([], 0, 0.0, [], 0);
    for i := 0 to |states|
      invariant Searched(keys, ids, i, found, least)
      invariant found.Some? ==> batch == Select(remaining, states[found.value].machine) && width == TotalWidth(batch)
    {
      var key, picked, total := Evaluate(states[i], remaining, byCount, st);
      SearchOneMore(keys, ids, i, found, least, key);
      if key.Some? && (found.None? || KeyLess(key.value, least)) {
        found, batch, width, least := Some(i), picked, total, key.value;
      }
    }
    if found.Some? {
      LeastIsChosen(states, st, remaining, byCount, found.value);
    } else {
      AllConsidered(states, st, keys);
    }
  }

  lemma LeastIsChosen(states: seq<MachineState>, st: States, remaining: seq<Profile>, byCount: bool, f: nat)
    requires Ready(remaining) && remaining != [] && Weighed(st, remaining, byCount) && Keyed(st)
    requires Represents(states, st)
    requires LeastAmong(CandidateKeys(st, remaining, byCount), MachineIds(states), |states|, f)
    ensures Candidates(st, remaining) != {} && states[f].machine.id == Chosen(st, remaining, byCount)
  {
    var keys, ids := CandidateKeys(st, remaining, byCount), MachineIds(states);
    AllConsidered(states, st, keys);
    assert ids[f] in Candidates(st, remaining);
    forall j | j in Candidates(st, remaining) && j != ids[f]
      ensures KeyLess(keys[ids[f]], keys[j])
    {
      var k :| 0 <= k < |states| && ids[k] == j;
    }
    assert IsChosen(st, remaining, byCount, ids[f]);
    ChosenUnique(st, remaining, byCount, ids[f]);
  }

  lemma AllConsidered(states: seq<MachineState>, st: States, keys: map<Id, Key>)
    requires Represents(states, st) && keys.Keys <= st.Keys
    ensures forall id :: id in keys ==> exists k :: 0 <= k < |states| && MachineIds(states)[k] == id
  {
    forall id | id in keys
      ensures exists k :: 0 <= k < |states| && MachineIds(states)[k] == id
    {
      var k :| 0 <= k < |states| && states[k].machine.id == id;
      assert MachineIds(states)[k] == id;
    }
  }

  // ----- planning a group and a whole list -----

  lemma TakenStates(states: seq<MachineState>, st: States, f: nat, after: View)
    requires f < |states| && after == states[f].Value()
    requires forall i, j :: 0 <= i < j < |states| ==> states[i].machine.id != states[j].machine.id
    requires forall i :: 0 <= i < |states| && i != f ==> states[i].machine.id in st && st[states[i].machine.id] == states[i].Value()
    requires forall id :: id in st ==> exists i :: 0 <= i < |states| && states[i].machine.id == id
    requires states[f].machine.id in st
    ensures Represents(states, st[states[f].machine.id := after])
  {
  }

  /** One pass of the loop over a group: give the best machine its batch, or report that no machine can serve. */
  method PlanStep(states: seq<MachineState>, remaining: seq<Profile>, byCount: bool, ghost st: States)
    returns (task: Option<PlannedTask>, rest: seq<Profile>, ghost after: States)
    requires Ready(remaining) && remaining != [] && Weighed(st, remaining, byCount) && Keyed(st)
    requires Represents(states, st)
    modifies states
    ensures Represents(states, after)
    ensures task.None? ==> after == st && PlanGroup(st, remaining, byCount) == Outcome([], remaining, st)
    ensures task.Some? ==>
              && |rest| < |remaining| && Ready(rest) && Weighed(after, rest, byCount) && Keyed(after)
              && Continues(PlanGroup(st, remaining, byCount), [task.value], PlanGroup(after, rest, byCount))
  {
    task, rest, after := None, remaining, st;
    var found, batch, width := FindCandidate(states, remaining, byCount, st);
    if found.Some? {
      ghost var s := GroupStep(st, remaining, byCount);
      var made := TakeBatch(states, found.value, batch, width, remaining[0].signature, st);
      task, rest, after := Some(made), Rest(remaining, batch), s.states;
    }
  }

  /** The machine's task, and its state with the task taken. */
  method TakeBatch(states: seq<MachineState>, f: nat, batch: seq<Profile>, width: real, signature: Signature, ghost st: States)
    returns (task: PlannedTask)
    requires f < |states| && Represents(states, st)
    modifies states[f]
    ensures task == PlannedTask(states[f].machine.id, OrdersOf(batch), width, BatchKg(OrdersOf(batch)),
                                SumBy(MetreQuantity, OrdersOf(batch)))
    ensures var id := states[f].machine.id;
            Represents(states, st[id := Loaded(st[id], signature, width, BatchKg(OrdersOf(batch)))])
  {
    var state := states[f];
    task := PlannedTask(state.machine.id, OrdersOf(batch), width, BatchKg(OrdersOf(batch)),
                        SumBy(MetreQuantity, OrdersOf(batch)));
    state.Take(signature, width, BatchKg(OrdersOf(batch)));
    TakenStates(states, st, f, state.Value());
  }

  /** The group is planned up to here: its outcome is the tasks so far and the outcome of what remains. */
  ghost predicate Underway(states: seq<MachineState>, st: States, remaining: seq<Profile>, byCount: bool, whole: Outcome,
                           tasks: seq<PlannedTask>)
    reads states
  {
    && Ready(remaining) && Weighed(st, remaining, byCount) && Keyed(st) && Represents(states, st)
    && Continues(whole, tasks, PlanGroup(st, remaining, byCount))
  }

  /** One pass of the loop over a group that is underway. */
  method PlanOneMore(states: seq<MachineState>, remaining: seq<Profile>, byCount: bool, tasks: seq<PlannedTask>,
                     ghost st: States, ghost whole: Outcome)
    returns (more: bool, tasks': seq<PlannedTask>, rest: seq<Profile>, ghost after: States)
    requires remaining != [] && Underway(states, st, remaining, byCount, whole, tasks)
    modifies states
    ensures more ==> |rest| < |remaining| && Underway(states, after, rest, byCount, whole, tasks')
    ensures !more ==> tasks' == tasks && after == st && Represents(states, st) && whole == Outcome(tasks, remaining, st)
  {
    var task;
    task, rest, after := PlanStep(states, remaining, byCount, st);
    more, tasks' := task.Some?, tasks;
    if task.Some? {
      ContinuesOn(whole, tasks, PlanGroup(st, remaining, byCount), task.value, PlanGroup(after, rest, byCount));
      tasks' := tasks + [task.value];
    } else {
      assert tasks + [] == tasks;
    }
  }

  method PlanOneGroup(states: seq<MachineState>, group: seq<Profile>, byCount: bool, ghost st: States)
    returns (tasks: seq<PlannedTask>, leftover: seq<Profile>, ghost after: States)
    requires Ready(group) && Weighed(st, group, byCount) && Keyed(st) && Represents(states, st)
    modifies states
    ensures Represents(states, after)
    ensures PlanGroup(st, group, byCount) == Outcome(tasks, leftover, after)
  {
    tasks, after := [], st;
    var remaining := group;
    ghost var whole := PlanGroup(st, group, byCount);
    NothingPlannedYet(whole);
    while remaining != []
      invariant Underway(states, after, remaining, byCount, whole, tasks)
      decreases |remaining|
    {
      var more, rest;
      more, tasks, rest, after := PlanOneMore(states, remaining, byCount, tasks, after, whole);
      if !more {
        leftover := remaining;
        return;
      }
      remaining := rest;
    }
    NothingRemains(after, byCount, whole, tasks);
    leftover := [];
  }

  lemma NothingPlannedYet(whole: Outcome)
    ensures Continues(whole, [], whole)
  {
  }

  lemma NothingRemains(st: States, byCount: bool, whole: Outcome, tasks: seq<PlannedTask>)
    requires Ready([]) && Weighed(st, [], byCount) && Keyed(st) && Continues(whole, tasks, PlanGroup(st, [], byCount))
    ensures whole == Outcome(tasks, [], st)
  {
  }

  lemma ContinuesOn(whole: Outcome, tasks: seq<PlannedTask>, rest: Outcome, t: PlannedTask, next: Outcome)
    requires Continues(whole, tasks, rest) && Continues(rest, [t], next)
    ensures Continues(whole, tasks + [t], next)
  {
    assert tasks + ([t] + next.tasks) == (tasks + [t]) + next.tasks;
  }

  /** The whole outcome is the tasks made so far followed by the outcome of the rest. */
  ghost predicate Continues(whole: Outcome, tasks: seq<PlannedTask>, rest: Outcome) {
    whole == Outcome(tasks + rest.tasks, rest.leftover, rest.states)
  }

  /** Collect the orders by key, remembering the keys in order of first occurrence. */
  method GroupOrders(ps: seq<Profile>) returns (keys: seq<GroupKey>, groups: map<GroupKey, seq<Profile>>)
    ensures keys == KeysOf(ps)
    ensures forall k :: k in keys ==> k in groups && groups[k] == GroupOf(ps, k)
  {
    keys, groups := [], map[];
    for i := 0 to |ps|
      invariant keys == KeysOf(ps[..i])
      invariant forall k :: k in keys <==> k in groups
      invariant forall k :: k in groups ==> groups[k] == GroupOf(ps[..i], k)
    {
      var key := KeyOf(ps[i]);
      assert ps[..i + 1][..i] == ps[..i];
      if key !in groups {
        NotYetGrouped(ps[..i], key);
        keys, groups := keys + [key], groups[key := []];
      }
      groups := groups[key := groups[key] + [ps[i]]];
    }
    assert ps[..|ps|] == ps;
  }

  lemma {:induction false} NotYetGrouped(ps: seq<Profile>, k: GroupKey)
    requires k !in KeysOf(ps)
    ensures GroupOf(ps, k) == []
  {
    if ps != [] {
      NotYetGrouped(ps[..|ps| - 1], k);
    }
  }

  /** The orders without a width and those with one, in order. */
  method SplitByWidth(ps: seq<Profile>) returns (lacking: seq<Profile>, schedulable: seq<Profile>)
    ensures lacking == Filter(LacksWidth, ps) && schedulable == Filter(HasWidth, ps)
  {
    lacking, schedulable := [], [];
    for i := 0 to |ps|
      invariant lacking == Filter(LacksWidth, ps[..i]) && schedulable == Filter(HasWidth, ps[..i])
    {
      assert ps[..i + 1][..i] == ps[..i];
      if ps[i].width.None? {
        lacking := lacking + [ps[i]];
      } else {
        schedulable := schedulable + [ps[i]];
      }
    }
    assert ps[..|ps|] == ps;
  }

  /** The planner: the tasks of the specified plan, and every order left over with its reason. */
  method Build(orders: seq<Order>, machines: seq<LoadedMachine>)
    returns (tasks: seq<PlannedTask>, unassigned: seq<Unassigned>)
    requires DistinctIds(orders) && DistinctMachines(machines)
    ensures tasks == Tasks(orders, machines)
    ensures unassigned == WithReasons(Left(orders, machines), machines)
  {
    var states := InitialStates(machines);
    var byCount := ByTaskCount(orders, machines);
    var lacking, schedulable := SplitByWidth(ProfilesOf(orders));
    InputsReady(orders, machines);
    var leftover;
    tasks, leftover := PlanEveryGroup(states, schedulable, byCount, StatesOf(machines));
    unassigned := WithReasons(lacking + leftover, machines);
  }

  lemma OneMoreGroup(st: States, ps: seq<Profile>, keys: seq<GroupKey>, i: nat, byCount: bool, before: Outcome, last: Outcome)
    requires Ready(ps) && Weighed(st, ps, byCount) && Keyed(st) && i < |keys|
    requires PlanGroups(st, ps, keys[..i], byCount) == before
    requires Ready(GroupOf(ps, keys[i])) && Weighed(before.states, GroupOf(ps, keys[i]), byCount) && Keyed(before.states)
    requires PlanGroup(before.states, GroupOf(ps, keys[i]), byCount) == last
    ensures PlanGroups(st, ps, keys[..i + 1], byCount)
            == Outcome(before.tasks + last.tasks, before.leftover + last.leftover, last.states)
    ensures Keyed(last.states) && Weighed(last.states, [], byCount)
  {
    assert keys[..i + 1][..i] == keys[..i];
    assert PlanGroups(st, ps, keys[..i + 1], byCount).states == last.states;
  }

  method PlanEveryGroup(states: seq<MachineState>, schedulable: seq<Profile>, byCount: bool, ghost st: States)
    returns (tasks: seq<PlannedTask>, leftover: seq<Profile>)
    requires Ready(schedulable) && Weighed(st, schedulable, byCount) && Keyed(st) && Represents(states, st)
    modifies states
    ensures var out := PlanGroups(st, schedulable, KeysOf(schedulable), byCount);
            tasks == out.tasks && leftover == out.leftover
  {
    var keys, groups := GroupOrders(schedulable);
    ghost var now := st;
    tasks, leftover := [], [];
    for i := 0 to |keys|
      invariant Represents(states, now) && Keyed(now) && Weighed(now, [], byCount)
      invariant PlanGroups(st, schedulable, keys[..i], byCount) == Outcome(tasks, leftover, now)
    {
      GroupReady(now, schedulable, keys[i], byCount);
      ghost var so := Outcome(tasks, leftover, now);
      var made, rest;
      made, rest, now := PlanOneGroup(states, groups[keys[i]], byCount, now);
      OneMoreGroup(st, schedulable, keys, i, byCount, so, Outcome(made, rest, now));
      tasks, leftover := tasks + made, leftover + rest;
    }
    assert keys[..|keys|] == keys;
  }
}
