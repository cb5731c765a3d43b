/** Applying a plan: whatever plan is stored, the board stays sound, and the tasks it places are the plan's. */
module PlanApplication {
  import opened Sequences
  import opened Records
  import opened ProductionRules
  import opened Tables
  import opened Queues
  import opened Board
  import opened BoardFrames
  import opened BoardSafety
  import opened BoardQueues
  import opened ScheduleInputs
  import opened SchedulePlans

  /** The entry can be placed: its orders are pending and its machine accepts them. */
  ghost predicate Placeable(s: State, e: Entry) {
    && e.machineId in s.machines && NoDuplicates(e.orderIds)
    && (forall i :: i in e.orderIds ==> i in s.orders && Unlinked(s.orders[i]))
    && ValidateBatch(s.machines[e.machineId], Rows(s.orders, e.orderIds)).Ok?
  }

  lemma PlaceOneKeepsInv(s: State, e: Entry, newId: Id, now: int)
    requires Inv(s) && newId !in s.tasks && Placeable(s, e)
    ensures Inv(PlaceOne(s, e, newId, now))
  {
    var t := Task(newId, e.machineId, NextPosition(s.tasks, On(s.tasks, e.machineId)), TaskWaiting, now);
    VerdictOfListing(s.machines[e.machineId], s.orders, e.orderIds);
    NextPositionPositive(s.tasks, e.machineId);
    ActiveAreOn(s.tasks, e.machineId);
    AddingTaskKeepsInv(s, PlaceOne(s, e, newId, now), t, SetOf(e.orderIds), now);
  }

  lemma ActiveAreOn(tasks: Tasks, machineId: Id)
    ensures Active(tasks, machineId) <= On(tasks, machineId)
    ensures forall t :: t in Active(tasks, machineId) ==> tasks[t].position < NextPosition(tasks, On(tasks, machineId))
  {
    forall t | t in Active(tasks, machineId)
      ensures tasks[t].position < NextPosition(tasks, On(tasks, machineId))
    {
      assert t in On(tasks, machineId);
    }
  }

  /** An entry with other orders can still be placed afterwards. */
  lemma PlaceableAfter(s: State, e: Entry, newId: Id, now: int, other: Entry)
    requires Placeable(s, e) && Placeable(s, other) && forall i :: i in other.orderIds ==> i !in e.orderIds
    ensures Placeable(PlaceOne(s, e, newId, now), other)
  {
    var s' := PlaceOne(s, e, newId, now);
    var m := s.machines[other.machineId];
    forall i | i in other.orderIds
      ensures i in s'.orders && s'.orders[i] == s.orders[i]
    {
      assert i !in SetOf(e.orderIds);
    }
    assert Rows(s'.orders, other.orderIds) == Rows(s.orders, other.orderIds);
  }

  lemma {:induction false} AllIdsAppend(a: seq<Entry>, b: seq<Entry>)
    ensures AllIds(a + b) == AllIds(a) + AllIds(b)
  {
    if b == [] {
      assert a + b == a;
    } else {
      var n := |b| - 1;
      AllIdsAppend(a, b[..n]);
      var whole := a + b;
      assert whole[..|whole| - 1] == a + b[..n] && whole[|whole| - 1] == b[n];
      assert AllIds(whole) == AllIds(a + b[..n]) + b[n].orderIds;
    }
  }

  lemma {:induction false} EntryIdsAmongAll(entries: seq<Entry>, e: Entry)
    requires e in entries
    ensures forall i :: i in e.orderIds ==> i in AllIds(entries)
  {
    var n := |entries| - 1;
    if entries[n] != e {
      assert e in entries[..n];
      EntryIdsAmongAll(entries[..n], e);
    }
  }

  /** The entries of a plan share no order. */
  ghost predicate Apart(entries: seq<Entry>) { NoDuplicates(AllIds(entries)) }

  lemma ApartParts(entries: seq<Entry>)
    requires entries != [] && Apart(entries)
    ensures var n := |entries| - 1;
            && Apart(entries[..n]) && NoDuplicates(entries[n].orderIds)
            && forall i :: i in entries[n].orderIds ==> i !in AllIds(entries[..n])
  {
    var n := |entries| - 1;
    NoDuplicatesParts(AllIds(entries[..n]), entries[n].orderIds);
  }

  lemma NoDuplicatesParts(a: seq<Id>, b: seq<Id>)
    requires NoDuplicates(a + b)
    ensures NoDuplicates(a) && NoDuplicates(b) && forall i :: i in b ==> i !in a
  {
    var c := a + b;
    assert forall i :: 0 <= i < |a| ==> a[i] == c[i];
    assert forall i :: 0 <= i < |b| ==> b[i] == c[|a| + i];
  }

  /** Placing entries that share no order, each placeable at the start. */
  ghost predicate AllPlaceable(s: State, entries: seq<Entry>) {
    Apart(entries) && forall e :: e in entries ==> Placeable(s, e)
  }

  lemma {:induction false} OthersStayPlaceable(s: State, entries: seq<Entry>, newIds: seq<Id>, now: int, other: Entry)
    requires |newIds| == |entries| && AllPlaceable(s, entries) && Placeable(s, other)
    requires forall i :: i in other.orderIds ==> i !in AllIds(entries)
    ensures Placeable(PlaceAll(s, entries, newIds, now), other)
  {
    if entries != [] {
      var n := |entries| - 1;
      ApartParts(entries);
      PrefixMembers(entries);
      OthersStayPlaceable(s, entries[..n], newIds[..n], now, other);
      OthersStayPlaceable(s, entries[..n], newIds[..n], now, entries[n]);
      PlaceableAfter(PlaceAll(s, entries[..n], newIds[..n], now), entries[n], newIds[n], now, other);
    }
  }

  lemma PrefixMembers(entries: seq<Entry>)
    requires entries != []
    ensures var n := |entries| - 1;
            entries[n] in entries && forall e :: e in entries[..n] ==> e in entries
  {
  }

  lemma PlaceOneKeys(s: State, e: Entry, newId: Id, now: int)
    ensures var s' := PlaceOne(s, e, newId, now);
            s'.machines == s.machines && s'.orders.Keys == s.orders.Keys && s'.tasks.Keys == s.tasks.Keys + {newId}
  {
  }

  lemma {:induction false} PlaceAllKeys(s: State, entries: seq<Entry>, newIds: seq<Id>, now: int)
    requires |newIds| == |entries|
    ensures var s' := PlaceAll(s, entries, newIds, now);
            s'.machines == s.machines && s'.orders.Keys == s.orders.Keys && s'.tasks.Keys == s.tasks.Keys + SetOf(newIds)
  {
    if entries != [] {
      var n := |entries| - 1;
      PlaceAllKeys(s, entries[..n], newIds[..n], now);
      assert newIds == newIds[..n] + [newIds[n]];
      SetOfSnoc(newIds[..n], newIds[n]);
      PlaceOneKeys(PlaceAll(s, entries[..n], newIds[..n], now), entries[n], newIds[n], now);
    } else {
      assert SetOf(newIds) == {};
    }
  }

  predicate FreshIds(s: State, newIds: seq<Id>) { NoDuplicates(newIds) && forall t :: t in newIds ==> t !in s.tasks }

  lemma {:induction false} PlaceAllKeepsInv(s: State, entries: seq<Entry>, newIds: seq<Id>, now: int)
    requires Inv(s) && |newIds| == |entries| && FreshIds(s, newIds) && AllPlaceable(s, entries)
    ensures Inv(PlaceAll(s, entries, newIds, now))
  {
    if entries != [] {
      var n := |entries| - 1;
      ApartParts(entries);
      PrefixMembers(entries);
      FreshParts(s, newIds);
      PlaceAllKeepsInv(s, entries[..n], newIds[..n], now);
      PlaceAllKeys(s, entries[..n], newIds[..n], now);
      OthersStayPlaceable(s, entries[..n], newIds[..n], now, entries[n]);
      PlaceOneKeepsInv(PlaceAll(s, entries[..n], newIds[..n], now), entries[n], newIds[n], now);
    }
  }

  lemma FreshParts(s: State, newIds: seq<Id>)
    requires newIds != [] && FreshIds(s, newIds)
    ensures var n := |newIds| - 1;
            FreshIds(s, newIds[..n]) && newIds[n] !in s.tasks && newIds[n] !in SetOf(newIds[..n])
  {
    var n := |newIds| - 1;
    assert newIds[n] in newIds;
  }

  // ----- the checks guarantee what placing needs -----

  lemma {:induction false} EntriesChecked(s: State, p: Plan, entries: seq<Entry>)
    requires forall e :: e in entries ==> e.machineId in s.machines
    ensures FirstEntryError(s, p, entries).None? <==> forall e :: e in entries ==> EntryError(s, p, e).None?
  {
    if entries != [] {
      var n := |entries| - 1;
      PrefixMembers(entries);
      EntriesChecked(s, p, entries[..n]);
      assert forall e :: e in entries <==> e in entries[..n] || e == entries[n];
    }
  }

  lemma CheckedIsPlaceable(s: State, p: Plan, e: Entry)
    requires e.machineId in s.machines && EntryError(s, p, e).None? && NoDuplicates(e.orderIds)
    requires forall i :: i in e.orderIds ==> i in s.orders && Unlinked(s.orders[i])
    ensures Placeable(s, e)
  {
  }

  lemma {:induction false} EntryApart(entries: seq<Entry>, e: Entry)
    requires Apart(entries) && e in entries
    ensures NoDuplicates(e.orderIds)
  {
    ApartParts(entries);
    var n := |entries| - 1;
    if entries[n] != e {
      assert e in entries[..n];
      EntryApart(entries[..n], e);
    }
  }

  lemma AcceptedIsPlaceable(s: State, p: Plan)
    requires ApplyError(s, p).None?
    ensures AllPlaceable(s, p.tasks)
  {
    EntriesChecked(s, p, p.tasks);
    forall e | e in p.tasks
      ensures Placeable(s, e)
    {
      EntryApart(p.tasks, e);
      EntryIdsAmongAll(p.tasks, e);
      CheckedIsPlaceable(s, p, e);
    }
  }

  /** Applying any stored plan, stale, edited or not, keeps the board sound or changes nothing. */
  lemma ApplyKeepsInv(s: State, p: Plan, newIds: seq<Id>, now: int)
    requires Inv(s) && |newIds| == |p.tasks| && FreshIds(s, newIds) && ApplyPlan(s, p, newIds, now).Ok?
    ensures Inv(ApplyPlan(s, p, newIds, now).value.0)
  {
    AcceptedIsPlaceable(s, p);
    PlaceAllKeepsInv(s, p.tasks, newIds, now);
  }

  // ----- what applying does -----

  /** Only the plan's orders change, and only new tasks appear. */
  lemma {:induction false} PlaceAllFrame(s: State, entries: seq<Entry>, newIds: seq<Id>, now: int)
    requires |newIds| == |entries| && FreshIds(s, newIds)
    ensures var s' := PlaceAll(s, entries, newIds, now);
            && (forall t :: t in s.tasks ==> t in s'.tasks && s'.tasks[t] == s.tasks[t])
            && s'.orders.Keys == s.orders.Keys
            && (forall i :: i in s.orders && i !in AllIds(entries) ==> s'.orders[i] == s.orders[i])
  {
    if entries != [] {
      var n := |entries| - 1;
      FreshParts(s, newIds);
      PlaceAllFrame(s, entries[..n], newIds[..n], now);
      PlaceOneFrame(PlaceAll(s, entries[..n], newIds[..n], now), entries[n], newIds[n], now);
    }
  }

  lemma PlaceOneFrame(s: State, e: Entry, newId: Id, now: int)
    ensures var s' := PlaceOne(s, e, newId, now);
            && (forall t :: t in s.tasks && t != newId ==> t in s'.tasks && s'.tasks[t] == s.tasks[t])
            && (forall i :: i in s.orders && i !in e.orderIds ==> s'.orders[i] == s.orders[i])
            && (forall i :: i in s.orders && i in e.orderIds ==>
                  s'.orders[i].status == OrderProducing && s'.orders[i].taskId == Some(newId))
  {
  }

  /** The k-th entry has become a waiting task of its machine that holds exactly its orders. */
  ghost predicate IsPlaced(s: State, e: Entry, t: Id) {
    && t in s.tasks && s.tasks[t].machineId == e.machineId && s.tasks[t].status == TaskWaiting
    && OrdersOfTask(s.orders, t) == SetOf(e.orderIds)
  }

  lemma {:induction false} EntryIsPlaced(s: State, entries: seq<Entry>, newIds: seq<Id>, now: int, k: nat)
    requires Inv(s) && |newIds| == |entries| && FreshIds(s, newIds) && AllPlaceable(s, entries) && k < |entries|
    ensures IsPlaced(PlaceAll(s, entries, newIds, now), entries[k], newIds[k])
  {
    var n := |entries| - 1;
    var before := PlaceAll(s, entries[..n], newIds[..n], now);
    ApartParts(entries);
    PrefixMembers(entries);
    FreshParts(s, newIds);
    PlaceAllKeys(s, entries[..n], newIds[..n], now);
    PlaceAllKeepsInv(s, entries[..n], newIds[..n], now);
    OthersStayPlaceable(s, entries[..n], newIds[..n], now, entries[n]);
    if k == n {
      NewTaskPlaced(before, entries[n], newIds[n], now);
    } else {
      EntryIsPlaced(s, entries[..n], newIds[..n], now, k);
      assert newIds[k] in newIds[..n];
      StaysPlaced(before, entries[k], newIds[k], entries[n], newIds[n], now);
    }
  }

  lemma NewTaskPlaced(s: State, e: Entry, newId: Id, now: int)
    requires StatusesAgree(s) && newId !in s.tasks && Placeable(s, e)
    ensures IsPlaced(PlaceOne(s, e, newId, now), e, newId)
  {
    NoOrdersYet(s, newId);
    OrdersAfterLinking(s.orders, SetOf(e.orderIds), OrderProducing, Some(newId), now, newId);
  }

  lemma StaysPlaced(s: State, e: Entry, t: Id, other: Entry, newId: Id, now: int)
    requires newId !in s.tasks && IsPlaced(s, e, t) && Placeable(s, other)
    ensures IsPlaced(PlaceOne(s, other, newId, now), e, t)
  {
    OrdersAfterLinking(s.orders, SetOf(other.orderIds), OrderProducing, Some(newId), now, t);
    UnlinkedElsewhere(s.orders, SetOf(other.orderIds), t);
  }

  /** The new tasks of a machine, in the plan's order. */
  function NewOn(entries: seq<Entry>, newIds: seq<Id>, machineId: Id): seq<Id>
    requires |newIds| == |entries|
  {
    if entries == [] then []
    else
      var n := |entries| - 1;
      NewOn(entries[..n], newIds[..n], machineId) + if entries[n].machineId == machineId then [newIds[n]] else []
  }

  /** Every machine's queue grows by its tasks of the plan, in the plan's order. */
  lemma {:induction false} ApplyExtendsQueues(s: State, entries: seq<Entry>, newIds: seq<Id>, now: int, m: Id)
    requires |newIds| == |entries| && FreshIds(s, newIds)
    ensures Queue(PlaceAll(s, entries, newIds, now).tasks, m) == Queue(s.tasks, m) + NewOn(entries, newIds, m)
  {
    if entries == [] {
      assert Queue(s.tasks, m) + [] == Queue(s.tasks, m);
    } else {
      var n := |entries| - 1;
      var before := PlaceAll(s, entries[..n], newIds[..n], now);
      FreshParts(s, newIds);
      PlaceAllKeys(s, entries[..n], newIds[..n], now);
      ApplyExtendsQueues(s, entries[..n], newIds[..n], now, m);
      PlaceOneQueue(before, entries[n], newIds[n], now, m);
      Associate(Queue(s.tasks, m), NewOn(entries[..n], newIds[..n], m),
                if entries[n].machineId == m then [newIds[n]] else []);
    }
  }

  lemma Associate(a: seq<Id>, b: seq<Id>, c: seq<Id>)
    ensures (a + b) + c == a + (b + c)
  {
  }

  lemma PlaceOneQueue(s: State, e: Entry, newId: Id, now: int, m: Id)
    requires newId !in s.tasks
    ensures Queue(PlaceOne(s, e, newId, now).tasks, m) == Queue(s.tasks, m) + if e.machineId == m then [newId] else []
  {
    ActiveAreOn(s.tasks, e.machineId);
    AppendedQueue(s.tasks, Task(newId, e.machineId, NextPosition(s.tasks, On(s.tasks, e.machineId)), TaskWaiting, now), m);
  }

  /** Exactly the plan's orders leave the pending ones. */
  lemma {:induction false} ApplyTakesOrders(s: State, entries: seq<Entry>, newIds: seq<Id>, now: int)
    requires |newIds| == |entries|
    ensures Pending(PlaceAll(s, entries, newIds, now).orders) == Pending(s.orders) - SetOf(AllIds(entries))
  {
    if entries != [] {
      var n := |entries| - 1;
      ApplyTakesOrders(s, entries[..n], newIds[..n], now);
      PlaceOneTakes(PlaceAll(s, entries[..n], newIds[..n], now), entries[n], newIds[n], now);
      SetOfAppend(AllIds(entries[..n]), entries[n].orderIds);
    }
  }

  lemma SetOfAppend(a: seq<Id>, b: seq<Id>)
    ensures SetOf(a + b) == SetOf(a) + SetOf(b)
  {
  }

  lemma PlaceOneTakes(s: State, e: Entry, newId: Id, now: int)
    ensures Pending(PlaceOne(s, e, newId, now).orders) == Pending(s.orders) - SetOf(e.orderIds)
  {
  }

  /** After one plan took an order, no plan with that order can be applied until the order is pending again. */
  lemma OrderTakenOnce(s: State, p: Plan, q: Plan, newIds: seq<Id>, now: int, others: seq<Id>, later: int, i: Id)
    requires |newIds| == |p.tasks| && |others| == |q.tasks| && ApplyPlan(s, p, newIds, now).Ok?
    requires i in AllIds(p.tasks) && i in AllIds(q.tasks)
    ensures ApplyPlan(ApplyPlan(s, p, newIds, now).value.0, q, others, later).Err?
  {
    ApplyTakesOrders(s, p.tasks, newIds, now);
    TakenOrderRefused(PlaceAll(s, p.tasks, newIds, now), q, i);
  }

  lemma TakenOrderRefused(s: State, p: Plan, i: Id)
    requires i in AllIds(p.tasks) && i !in Pending(s.orders)
    ensures ApplyError(s, p).Some?
  {
  }
}
