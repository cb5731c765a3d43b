/** What each board operation makes of the machines' queues, and what undoes it. */
module BoardQueues {
  import opened Sequences
  import opened Records
  import opened ProductionRules
  import opened Tables
  import opened Queues
  import opened Board
  import opened BoardFrames
  import opened BoardSafety

  /** A listing in order of a machine's unfinished tasks is its queue. */
  lemma QueueIs(tasks: Tasks, machineId: Id, q: seq<Id>)
    requires InOrder(tasks, q) && forall t :: t in q <==> t in Active(tasks, machineId)
    ensures Queue(tasks, machineId) == q
  {
    OneOrder(tasks, Queue(tasks, machineId), q);
  }

  lemma RenumberElsewhere(tasks: Tasks, q: seq<Id>, now: int, machineId: Id)
    requires NoDuplicates(q) && forall t :: t in q ==> t in tasks && t !in Active(tasks, machineId)
    ensures Queue(Renumber(tasks, q, now), machineId) == Queue(tasks, machineId)
  {
    RenumberKeepsSlots(tasks, q, now);
    QueueFrame(tasks, Renumber(tasks, q, now), machineId);
  }

  /** Renumbering a machine's own queue keeps it, and every other machine's too. */
  lemma NormalisedQueues(tasks: Tasks, machineId: Id, now: int, other: Id)
    ensures var r := Normalised(tasks, machineId, now);
            Queue(r, other) == Queue(tasks, other) && Contiguous(r, machineId)
  {
    var q := Queue(tasks, machineId);
    InOrderNoDuplicates(tasks, q);
    QueueAfterRenumber(tasks, machineId, q, now);
    if other != machineId {
      RenumberElsewhere(tasks, q, now, other);
    }
  }

  lemma AppendedQueue(tasks: Tasks, t: Task, other: Id)
    requires t.id !in tasks && Unfinished(t)
    requires forall u :: u in Active(tasks, t.machineId) ==> tasks[u].position < t.position
    ensures Queue(tasks[t.id := t], other) == Queue(tasks, other) + if other == t.machineId then [t.id] else []
  {
    var tasks', q := tasks[t.id := t], Queue(tasks, other);
    if other == t.machineId {
      QueueWithLast(tasks, t);
    } else {
      assert Active(tasks', other) == Active(tasks, other);
      QueueFrame(tasks, tasks', other);
      assert q + [] == q;
    }
  }

  lemma QueueWithLast(tasks: Tasks, t: Task)
    requires t.id !in tasks && Unfinished(t)
    requires forall u :: u in Active(tasks, t.machineId) ==> tasks[u].position < t.position
    ensures Queue(tasks[t.id := t], t.machineId) == Queue(tasks, t.machineId) + [t.id]
  {
    var tasks', q := tasks[t.id := t], Queue(tasks, t.machineId);
    forall u | u in q
      ensures u in tasks && u != t.id && tasks[u].position < t.position
    {
      assert u in Active(tasks, t.machineId);
    }
    StillInOrder(tasks, tasks', q);
    LastInOrder(tasks', q, t.id);
    assert forall u :: u in Active(tasks', t.machineId) <==> u == t.id || u in Active(tasks, t.machineId);
    QueueIs(tasks', t.machineId, q + [t.id]);
  }

  lemma LastInOrder(tasks: Tasks, q: seq<Id>, t: Id)
    requires InOrder(tasks, q) && t in tasks
    requires forall u :: u in q ==> u in tasks && tasks[u].position < tasks[t].position
    ensures InOrder(tasks, q + [t])
    ensures forall u :: u in q + [t] <==> u in q || u == t
  {
    forall i | 0 <= i < |q|
      ensures Earlier(tasks, q[i], t)
    {
      assert q[i] in q;
    }
  }

  /** A new task joins the end of its machine's queue and no other queue changes. */
  lemma CreateTaskAppends(s: State, machineId: Option<Id>, orderIds: seq<Id>, newId: Id, now: int, other: Id)
    requires newId !in s.tasks && CreateTask(s, machineId, orderIds, newId, now).Ok?
    ensures var s' := CreateTask(s, machineId, orderIds, newId, now).value;
            Queue(s'.tasks, other) == Queue(s.tasks, other) + if Some(other) == machineId then [newId] else []
  {
    AppendedQueue(s.tasks, NewTask(s.tasks, newId, machineId.value, now), other);
  }

  lemma QueueWithout(tasks: Tasks, taskId: Id, other: Id)
    requires taskId in tasks
    ensures Queue(tasks - {taskId}, other)
            == if other == tasks[taskId].machineId then Remove(Queue(tasks, other), taskId) else Queue(tasks, other)
  {
    if other == tasks[taskId].machineId {
      QueueLeft(tasks, taskId);
    } else {
      QueueKept(tasks, taskId, other);
    }
  }

  lemma QueueKept(tasks: Tasks, taskId: Id, other: Id)
    requires taskId in tasks && other != tasks[taskId].machineId
    ensures Queue(tasks - {taskId}, other) == Queue(tasks, other)
  {
    assert Active(tasks - {taskId}, other) == Active(tasks, other);
    QueueFrame(tasks, tasks - {taskId}, other);
  }

  lemma QueueLeft(tasks: Tasks, taskId: Id)
    requires taskId in tasks
    ensures Queue(tasks - {taskId}, tasks[taskId].machineId) == Remove(Queue(tasks, tasks[taskId].machineId), taskId)
  {
    var m := tasks[taskId].machineId;
    var tasks', q := tasks - {taskId}, Queue(tasks, m);
    RemoveMembers(q, taskId);
    RemoveInOrder(tasks, q, taskId);
    QueueMembers(tasks, m);
    QueueMembers(tasks', m);
    StillInOrder(tasks, tasks', Remove(q, taskId));
    OneOrder(tasks', Queue(tasks', m), Remove(q, taskId));
  }

  lemma QueueMembers(tasks: Tasks, machineId: Id)
    ensures forall t :: t in Queue(tasks, machineId) <==>
                t in tasks && tasks[t].machineId == machineId && tasks[t].status != TaskDone
  {
  }

  lemma StillInOrder(tasks: Tasks, tasks': Tasks, q: seq<Id>)
    requires InOrder(tasks, q) && forall t :: t in q ==> t in tasks' && tasks'[t].position == tasks[t].position
    ensures InOrder(tasks', q)
  {
    forall i | 0 <= i < |q|
      ensures q[i] in tasks' && tasks'[q[i]].position == tasks[q[i]].position
    {
      assert q[i] in q;
    }
  }

  /** A deleted task leaves its queue, the others keep their order at 1 to n, and no other queue changes. */
  lemma DeleteTaskRemoves(s: State, taskId: Id, now: int, other: Id)
    requires DeleteTask(s, taskId, now).Ok?
    ensures var s', m := DeleteTask(s, taskId, now).value, s.tasks[taskId].machineId;
            && Queue(s'.tasks, other) == (if other == m then Remove(Queue(s.tasks, m), taskId) else Queue(s.tasks, other))
            && Contiguous(s'.tasks, m)
  {
    QueueWithout(s.tasks, taskId, other);
    NormalisedQueues(s.tasks - {taskId}, s.tasks[taskId].machineId, now, other);
  }

  lemma RehomedOtherQueue(tasks: Tasks, taskId: Id, machineId: Id, now: int, other: Id)
    requires taskId in tasks && other != machineId && other != tasks[taskId].machineId
    ensures Queue(Rehomed(tasks, taskId, machineId, now), other) == Queue(tasks, other)
  {
    assert Active(Rehomed(tasks, taskId, machineId, now), other) == Active(tasks, other);
    QueueFrame(tasks, Rehomed(tasks, taskId, machineId, now), other);
  }

  /** The moved task is taken out of its queue and inserted at the clamped index; nobody else changes places. */
  lemma MoveTaskRelocates(s: State, taskId: Id, machineId: Id, index: nat, now: int, other: Id)
    requires MoveTask(s, taskId, machineId, index, now).Ok?
    ensures var s', from := MoveTask(s, taskId, machineId, index, now).value, s.tasks[taskId].machineId;
            && Queue(s'.tasks, other)
               == (if other == machineId then InsertAt(Remove(Queue(s.tasks, machineId), taskId), index, taskId)
                   else Remove(Queue(s.tasks, other), taskId))
            && (other == machineId || other == from ==> Contiguous(s'.tasks, other))
  {
    var from := s.tasks[taskId].machineId;
    if from == machineId {
      PlacedWithinQueue(s.tasks, taskId, index);
      var q := InsertAt(Remove(Queue(s.tasks, machineId), taskId), index, taskId);
      QueueAfterRenumber(s.tasks, machineId, q, now);
      if other != machineId {
        RenumberElsewhere(s.tasks, q, now, other);
        RemoveAbsent(Queue(s.tasks, other), taskId);
      }
    } else {
      RelocatedQueues(s.tasks, taskId, machineId, index, now, other);
    }
  }

  lemma RelocatedQueues(tasks: Tasks, taskId: Id, machineId: Id, index: nat, now: int, other: Id)
    requires taskId in tasks && Unfinished(tasks[taskId]) && tasks[taskId].machineId != machineId
    ensures var tasks', from := Relocated(tasks, taskId, machineId, index, now), tasks[taskId].machineId;
            && Queue(tasks', other)
               == (if other == machineId then InsertAt(Remove(Queue(tasks, machineId), taskId), index, taskId)
                   else Remove(Queue(tasks, other), taskId))
            && (other == machineId || other == from ==> Contiguous(tasks', other))
  {
    RemoveAbsent(Queue(tasks, machineId), taskId);
    if other == machineId {
      JoinedQueue(tasks, taskId, machineId, index, now);
    } else if other == tasks[taskId].machineId {
      LeftQueue(tasks, taskId, machineId, index, now);
    } else {
      OtherQueue(tasks, taskId, machineId, index, now, other);
      RemoveAbsent(Queue(tasks, other), taskId);
    }
  }

  lemma JoinedQueue(tasks: Tasks, taskId: Id, machineId: Id, index: nat, now: int)
    requires taskId in tasks && Unfinished(tasks[taskId]) && tasks[taskId].machineId != machineId
    ensures var tasks' := Relocated(tasks, taskId, machineId, index, now);
            Queue(tasks', machineId) == InsertAt(Queue(tasks, machineId), index, taskId) && Contiguous(tasks', machineId)
  {
    var from, mid := tasks[taskId].machineId, Rehomed(tasks, taskId, machineId, now);
    var without, into := Remove(Queue(tasks, from), taskId), InsertAt(Queue(tasks, machineId), index, taskId);
    RehomedQueues(tasks, taskId, machineId, index, now);
    RenumberKeepsSlots(mid, without, now);
    QueueAfterRenumber(Renumber(mid, without, now), machineId, into, now);
  }

  lemma LeftQueue(tasks: Tasks, taskId: Id, machineId: Id, index: nat, now: int)
    requires taskId in tasks && Unfinished(tasks[taskId]) && tasks[taskId].machineId != machineId
    ensures var tasks', from := Relocated(tasks, taskId, machineId, index, now), tasks[taskId].machineId;
            Queue(tasks', from) == Remove(Queue(tasks, from), taskId) && Contiguous(tasks', from)
  {
    var from, mid := tasks[taskId].machineId, Rehomed(tasks, taskId, machineId, now);
    var without, into := Remove(Queue(tasks, from), taskId), InsertAt(Queue(tasks, machineId), index, taskId);
    RehomedQueues(tasks, taskId, machineId, index, now);
    RenumberKeepsSlots(mid, without, now);
    QueueAfterRenumber(mid, from, without, now);
    RenumberElsewhere(Renumber(mid, without, now), into, now, from);
    ContiguousElsewhere(Renumber(mid, without, now), into, now, from);
  }

  lemma OtherQueue(tasks: Tasks, taskId: Id, machineId: Id, index: nat, now: int, other: Id)
    requires taskId in tasks && Unfinished(tasks[taskId]) && tasks[taskId].machineId != machineId
    requires other != machineId && other != tasks[taskId].machineId
    ensures Queue(Relocated(tasks, taskId, machineId, index, now), other) == Queue(tasks, other)
  {
    var from, mid := tasks[taskId].machineId, Rehomed(tasks, taskId, machineId, now);
    var without, into := Remove(Queue(tasks, from), taskId), InsertAt(Queue(tasks, machineId), index, taskId);
    RehomedQueues(tasks, taskId, machineId, index, now);
    RenumberKeepsSlots(mid, without, now);
    RenumberElsewhere(Renumber(mid, without, now), into, now, other);
    RenumberElsewhere(mid, without, now, other);
    RehomedOtherQueue(tasks, taskId, machineId, now, other);
  }

  lemma ContiguousElsewhere(tasks: Tasks, q: seq<Id>, now: int, machineId: Id)
    requires NoDuplicates(q) && forall t :: t in q ==> t in tasks && t !in Active(tasks, machineId)
    ensures Contiguous(tasks, machineId) ==> Contiguous(Renumber(tasks, q, now), machineId)
  {
    RenumberElsewhere(tasks, q, now, machineId);
    var queue := Queue(tasks, machineId);
    forall i | 0 <= i < |queue|
      ensures queue[i] !in q
    {
      assert queue[i] in queue;
    }
  }

  lemma {:induction false} RemoveAbsent(q: seq<Id>, t: Id)
    requires t !in q
    ensures Remove(q, t) == q
  {
    if q != [] {
      RemoveAbsent(q[1..], t);
      assert q == [q[0]] + q[1..];
    }
  }

  /** Everyone but the moved task keeps the relative order it had. */
  lemma MoveTaskKeepsOthersInOrder(s: State, taskId: Id, machineId: Id, index: nat, now: int, other: Id)
    requires MoveTask(s, taskId, machineId, index, now).Ok?
    ensures var s' := MoveTask(s, taskId, machineId, index, now).value;
            Remove(Queue(s'.tasks, other), taskId) == Remove(Queue(s.tasks, other), taskId)
  {
    MoveTaskRelocates(s, taskId, machineId, index, now, other);
    RemoveMembers(Queue(s.tasks, other), taskId);
    RemoveUndoesInsert(Remove(Queue(s.tasks, other), taskId), index, taskId);
    RemoveAbsent(Remove(Queue(s.tasks, other), taskId), taskId);
  }

  lemma RemoveUndoesInsert(q: seq<Id>, index: nat, t: Id)
    requires t !in q
    ensures Remove(InsertAt(q, index, t), t) == q
  {
    var i := if index < |q| then index else |q|;
    assert q == q[..i] + q[i..];
    RemoveInserted(q[..i], t, q[i..]);
  }

  lemma {:induction false} RemoveInserted(a: seq<Id>, t: Id, b: seq<Id>)
    requires t !in a && t !in b
    ensures Remove(a + [t] + b, t) == a + b
  {
    if a == [] {
      assert ([] + [t] + b)[1..] == b;
      RemoveAbsent(b, t);
      assert a + b == b;
    } else {
      assert (a + [t] + b)[1..] == a[1..] + [t] + b;
      RemoveInserted(a[1..], t, b);
      assert a + b == [a[0]] + (a[1..] + b);
    }
  }

  /** The accepted listing becomes the queue, at 1 to n. */
  lemma ReorderTasksSets(s: State, machineId: Id, ids: seq<Id>, now: int, other: Id)
    requires ReorderTasks(s, machineId, ids, now).Ok?
    ensures var s' := ReorderTasks(s, machineId, ids, now).value;
            && Queue(s'.tasks, other) == (if other == machineId then ids else Queue(s.tasks, other))
            && Contiguous(s'.tasks, machineId)
  {
    QueueAfterRenumber(s.tasks, machineId, ids, now);
    if other != machineId {
      RenumberElsewhere(s.tasks, ids, now, other);
    }
  }

  /** A reordering is accepted exactly when it lists the machine's unfinished tasks once each. */
  lemma ReorderAcceptedExactlyWhen(s: State, machineId: Id, ids: seq<Id>, now: int)
    requires machineId in s.machines
    ensures ReorderTasks(s, machineId, ids, now).Ok? <==> multiset(ids) == multiset(Queue(s.tasks, machineId))
  {
    var q := Queue(s.tasks, machineId);
    InOrderNoDuplicates(s.tasks, q);
    if ReorderTasks(s, machineId, ids, now).Ok? {
      assert forall t :: t in ids <==> t in SetOf(ids);
      SameMembersSameMultiset(ids, q);
    }
    if multiset(ids) == multiset(q) {
      SameElements(ids, q);
      PermutationDistinct((t: Id) => t, q, ids);
      assert SetOf(ids) == Active(s.tasks, machineId);
    }
  }

  // ----- status changes and moved orders -----

  /** Finishing a task takes it out of its queue, restoring it appends it, and the other changes leave it in place. */
  lemma UpdateTaskQueues(s: State, taskId: Id, u: TaskUpdate, now: int, other: Id)
    requires UpdateTask(s, taskId, u, now).Ok? && taskId in s.tasks && s.tasks[taskId].id == taskId
    ensures var s', t, q := UpdateTask(s, taskId, u, now).value, s.tasks[taskId], Queue(s.tasks, other);
            Queue(s'.tasks, other)
            == if other != t.machineId || u.status.value == t.status then q
               else if u.status.value == TaskDone then Remove(q, taskId)
               else if t.status == TaskDone then q + [taskId] else q
  {
    var s', t := UpdateTask(s, taskId, u, now).value, s.tasks[taskId];
    if u.status.value != t.status {
      assert s'.tasks == s.tasks[taskId := s'.tasks[taskId]];
      ReplacedTaskQueue(s.tasks, s'.tasks[taskId], other);
    }
  }

  lemma ReplacedTaskQueue(tasks: Tasks, t: Task, other: Id)
    requires t.id in tasks && tasks[t.id].machineId == t.machineId
    requires if tasks[t.id].status == TaskDone
             then forall u :: u in Active(tasks, t.machineId) ==> tasks[u].position < t.position
             else t.position == tasks[t.id].position
    requires Unfinished(t) || Unfinished(tasks[t.id])
    ensures var q := Queue(tasks, other);
            Queue(tasks[t.id := t], other)
            == if other != t.machineId then q
               else if t.status == TaskDone then Remove(q, t.id)
               else if tasks[t.id].status == TaskDone then q + [t.id] else q
  {
    if other != t.machineId || (Unfinished(t) && Unfinished(tasks[t.id])) {
      SameActiveQueue(tasks, t, other);
    } else if t.status == TaskDone {
      FinishedQueue(tasks, t);
    } else {
      RestoredQueue(tasks, t);
    }
  }

  lemma SameActiveQueue(tasks: Tasks, t: Task, other: Id)
    requires t.id in tasks && tasks[t.id].machineId == t.machineId
    requires other != t.machineId || (Unfinished(t) && Unfinished(tasks[t.id]) && t.position == tasks[t.id].position)
    ensures Queue(tasks[t.id := t], other) == Queue(tasks, other)
  {
    assert Active(tasks[t.id := t], other) == Active(tasks, other);
    QueueFrame(tasks, tasks[t.id := t], other);
  }

  lemma FinishedQueue(tasks: Tasks, t: Task)
    requires t.id in tasks && tasks[t.id].machineId == t.machineId && t.status == TaskDone
    ensures Queue(tasks[t.id := t], t.machineId) == Remove(Queue(tasks, t.machineId), t.id)
  {
    var rest := tasks - {t.id};
    QueueWithout(tasks, t.id, t.machineId);
    assert Active(tasks[t.id := t], t.machineId) == Active(rest, t.machineId);
    QueueFrame(rest, tasks[t.id := t], t.machineId);
  }

  lemma RestoredQueue(tasks: Tasks, t: Task)
    requires t.id in tasks && tasks[t.id].machineId == t.machineId && tasks[t.id].status == TaskDone && Unfinished(t)
    requires forall u :: u in Active(tasks, t.machineId) ==> tasks[u].position < t.position
    ensures Queue(tasks[t.id := t], t.machineId) == Queue(tasks, t.machineId) + [t.id]
  {
    var rest := tasks - {t.id};
    QueueWithout(tasks, t.id, t.machineId);
    assert t.id !in Active(tasks, t.machineId);
    RemoveAbsent(Queue(tasks, t.machineId), t.id);
    assert rest[t.id := t] == tasks[t.id := t];
    forall u | u in Active(rest, t.machineId)
      ensures rest[u].position < t.position
    {
      assert u in Active(tasks, t.machineId);
    }
    AppendedQueue(rest, t, t.machineId);
  }

  /** The queue of a machine once an order has moved: a new task is appended, an emptied one is removed. */
  function QueueAfterMove(s: State, orderId: Id, source: Option<Id>, targetMachine: Option<Id>, newId: Id, other: Id): seq<Id> {
    var joined := Queue(s.tasks, other) + if targetMachine == Some(other) then [newId] else [];
    if source.Some? && OrdersOfTask(s.orders, source.value) == {orderId} then Remove(joined, source.value) else joined
  }

  lemma MoveOrderQueues(s: State, orderId: Id, source: Option<Id>, targetTask: Option<Id>, targetMachine: Option<Id>,
                        newId: Id, now: int, other: Id)
    requires newId !in s.tasks && source != targetTask
    requires MoveOrder(s, orderId, source, targetTask, targetMachine, newId, now).Ok?
    ensures var s' := MoveOrder(s, orderId, source, targetTask, targetMachine, newId, now).value;
            && Queue(s'.tasks, other) == QueueAfterMove(s, orderId, source, targetMachine, newId, other)
            && (targetMachine == Some(other) ==> Contiguous(s'.tasks, other))
            && (source.Some? && s.tasks[source.value].machineId == other ==> Contiguous(s'.tasks, other))
  {
    var target := if targetTask.Some? then ToTask(targetTask.value)
                  else if targetMachine.Some? then ToMachine(targetMachine.value) else ToPending;
    var moved := Moved(s, orderId, source, target, newId, now);
    assert LeaveError(s, orderId, source).None?;
    MovedQueue(s, orderId, source, target, newId, now, other);
    TidiedQueues(moved.tasks, if source.Some? then Some(s.tasks[source.value].machineId) else None, targetMachine, now, other);
  }

  lemma MovedQueue(s: State, orderId: Id, source: Option<Id>, target: Target, newId: Id, now: int, other: Id)
    requires newId !in s.tasks && orderId in s.orders && (source.Some? ==> source.value in s.tasks)
    requires LeaveError(s, orderId, source).None?
    ensures Queue(Moved(s, orderId, source, target, newId, now).tasks, other)
            == QueueAfterMove(s, orderId, source, if target.ToMachine? then Some(target.machineId) else None, newId, other)
  {
    var added := if target.ToMachine? then s.tasks[newId := NewTask(s.tasks, newId, target.machineId, now)] else s.tasks;
    if target.ToMachine? {
      AppendedQueue(s.tasks, NewTask(s.tasks, newId, target.machineId, now), other);
    } else {
      assert Queue(s.tasks, other) + [] == Queue(s.tasks, other);
    }
    if source.Some? {
      assert orderId in OrdersOfTask(s.orders, source.value);
      assert OrdersOfTask(s.orders, source.value) <= {orderId} <==> OrdersOfTask(s.orders, source.value) == {orderId};
      QueueWithout(added, source.value, other);
      if s.tasks[source.value].machineId != other {
        assert source.value !in Active(added, other);
        RemoveAbsent(Queue(added, other), source.value);
      }
    }
  }

  lemma TidiedQueues(tasks: Tasks, left: Option<Id>, joined: Option<Id>, now: int, other: Id)
    ensures var r := Tidied(tasks, left, joined, now);
            && Queue(r, other) == Queue(tasks, other)
            && (left == Some(other) || joined == Some(other) ==> Contiguous(r, other))
  {
    var once := if left.Some? then Normalised(tasks, left.value, now) else tasks;
    if left.Some? {
      NormalisedQueues(tasks, left.value, now, other);
    }
    if joined.Some? && joined != left {
      NormalisedQueues(once, joined.value, now, other);
      if left == Some(other) {
        var q := Queue(once, joined.value);
        InOrderNoDuplicates(once, q);
        ContiguousElsewhere(once, q, now, other);
      }
    }
  }

  // ----- what undoes what -----

  /** The same row but for its time of change. */
  predicate SameButStamp(a: Order, b: Order) { a.(updatedAt := b.updatedAt) == b }

  /** The same rows in the same queues, but for positions and times of change. */
  ghost predicate SameBoard(a: State, b: State) {
    && a.machines == b.machines && a.orders.Keys == b.orders.Keys && a.tasks.Keys == b.tasks.Keys
    && (forall o :: o in a.orders ==> SameButStamp(a.orders[o], b.orders[o]))
    && (forall t :: t in a.tasks ==> SameSlot(a.tasks[t], b.tasks[t]))
    && (forall m :: Queue(a.tasks, m) == Queue(b.tasks, m))
  }

  lemma LinkedAndBack(orders: Orders, ids: set<Id>, status: OrderStatus, taskId: Option<Id>, now: int, later: int)
    requires ids <= orders.Keys && forall o :: o in ids ==> Unlinked(orders[o])
    ensures var r := Linked(Linked(orders, ids, status, taskId, now), ids, OrderPending, None, later);
            r.Keys == orders.Keys && forall o :: o in r ==> SameButStamp(r[o], orders[o])
  {
  }

  /** Deleting the task just created is accepted and restores the board. */
  lemma DeleteUndoesCreate(s: State, machineId: Option<Id>, orderIds: seq<Id>, newId: Id, now: int, later: int)
    requires Inv(s) && newId !in s.tasks && CreateTask(s, machineId, orderIds, newId, now).Ok?
    ensures var s1 := CreateTask(s, machineId, orderIds, newId, now).value;
            DeleteTask(s1, newId, later).Ok? && SameBoard(DeleteTask(s1, newId, later).value, s)
  {
    DeletingNewTask(s, CreateTask(s, machineId, orderIds, newId, now).value,
                    NewTask(s.tasks, newId, machineId.value, now), SetOf(orderIds), now, later);
  }

  lemma DeletingNewTask(s: State, s1: State, t: Task, ids: set<Id>, now: int, later: int)
    requires StatusesAgree(s) && t.id !in s.tasks && t.status == TaskWaiting && t.machineId in s.machines
    requires ids <= s.orders.Keys && forall o :: o in ids ==> Unlinked(s.orders[o])
    requires s1 == s.(tasks := s.tasks[t.id := t], orders := Linked(s.orders, ids, OrderProducing, Some(t.id), now))
    ensures DeleteTask(s1, t.id, later).Ok? && SameBoard(DeleteTask(s1, t.id, later).value, s)
  {
    OrdersAfterLinking(s.orders, ids, OrderProducing, Some(t.id), now, t.id);
    NoOrdersYet(s, t.id);
    assert OrdersOfTask(s1.orders, t.id) == ids;
    assert s1.tasks - {t.id} == s.tasks;
    LinkedAndBack(s.orders, ids, OrderProducing, Some(t.id), now, later);
    TidiedBoard(s, Linked(s1.orders, ids, OrderPending, None, later), t.machineId, later);
  }

  lemma TidiedBoard(s: State, orders: Orders, machineId: Id, now: int)
    requires orders.Keys == s.orders.Keys && forall o :: o in orders ==> SameButStamp(orders[o], s.orders[o])
    ensures SameBoard(s.(orders := orders, tasks := Normalised(s.tasks, machineId, now)), s)
  {
    NormalisedSame(s.tasks, machineId, now);
  }

  lemma NormalisedSame(tasks: Tasks, machineId: Id, now: int)
    ensures var r := Normalised(tasks, machineId, now);
            && r.Keys == tasks.Keys && (forall t :: t in r ==> SameSlot(r[t], tasks[t]))
            && (forall m :: Queue(r, m) == Queue(tasks, m))
  {
    InOrderNoDuplicates(tasks, Queue(tasks, machineId));
    RenumberKeepsSlots(tasks, Queue(tasks, machineId), now);
    forall m: Id
      ensures Queue(Normalised(tasks, machineId, now), m) == Queue(tasks, m)
    {
      NormalisedQueues(tasks, machineId, now, m);
    }
  }

  /** Taking a pending order into a task and back out again is accepted and restores the board. */
  lemma MoveOutUndoesMoveIn(s: State, orderId: Id, taskId: Id, newId: Id, now: int, later: int)
    requires Inv(s) && MoveOrder(s, orderId, None, Some(taskId), None, newId, now).Ok?
    ensures var s1 := MoveOrder(s, orderId, None, Some(taskId), None, newId, now).value;
            var back := MoveOrder(s1, orderId, Some(taskId), None, None, newId, later);
            back.Ok? && SameBoard(back.value, s)
  {
    assert LeaveError(s, orderId, None).None?;
    MovingBackOut(s, MoveOrder(s, orderId, None, Some(taskId), None, newId, now).value, orderId, taskId, newId, now, later);
  }

  lemma MovingBackOut(s: State, s1: State, orderId: Id, taskId: Id, newId: Id, now: int, later: int)
    requires BatchesValid(s) && taskId in s.tasks && s.tasks[taskId].status == TaskWaiting
    requires s.tasks[taskId].machineId in s.machines && orderId in s.orders && Unlinked(s.orders[orderId])
    requires s1 == s.(orders := Linked(s.orders, {orderId}, OrderProducing, Some(taskId), now))
    ensures var back := MoveOrder(s1, orderId, Some(taskId), None, None, newId, later);
            back.Ok? && SameBoard(back.value, s)
  {
    OrdersAfterLinking(s.orders, {orderId}, OrderProducing, Some(taskId), now, taskId);
    LinkingKeepsContents(s.orders, {orderId}, OrderProducing, Some(taskId), now);
    assert BatchValid(s, taskId);
    LeavingIsAccepted(s, s1, orderId, taskId);
    MoveOutShape(s1, orderId, taskId, newId, later);
    LinkedAndBack(s.orders, {orderId}, OrderProducing, Some(taskId), now, later);
    TidiedBoard(s, Linked(s1.orders, {orderId}, OrderPending, None, later), s.tasks[taskId].machineId, later);
  }

  lemma MoveOutShape(s: State, orderId: Id, taskId: Id, newId: Id, now: int)
    requires taskId in s.tasks && s.tasks[taskId].status == TaskWaiting && s.tasks[taskId].machineId in s.machines
    requires orderId in s.orders && s.orders[orderId].taskId == Some(taskId)
    requires BatchError(s, orderId, Some(taskId), ToPending).None? && !(OrdersOfTask(s.orders, taskId) <= {orderId})
    ensures MoveOrder(s, orderId, Some(taskId), None, None, newId, now)
            == Ok(s.(orders := Linked(s.orders, {orderId}, OrderPending, None, now),
                     tasks := Normalised(s.tasks, s.tasks[taskId].machineId, now)))
  {
  }

  /** What remains after the order leaves again is the batch that was there before. */
  lemma LeavingIsAccepted(s: State, s1: State, orderId: Id, taskId: Id)
    requires taskId in s.tasks && BatchValid(s, taskId) && s1.machines == s.machines && s1.tasks == s.tasks
    requires ContentsKept(s.orders, s1.orders) && s1.orders.Keys == s.orders.Keys
    requires orderId in s1.orders && orderId !in OrdersOfTask(s.orders, taskId)
    requires OrdersOfTask(s1.orders, taskId) == OrdersOfTask(s.orders, taskId) + {orderId}
    ensures BatchError(s1, orderId, Some(taskId), ToPending).None?
    ensures !(OrdersOfTask(s1.orders, taskId) <= {orderId})
  {
    var m, ids := s.machines[s.tasks[taskId].machineId], OrdersOfTask(s.orders, taskId);
    assert (ids + {orderId}) - {orderId} == ids;
    VerdictFrame(m, s.orders, s1.orders, ids);
    NonEmptyBatch(m, s.orders, ids);
    RemainderChecked(s1, orderId, taskId);
  }

  lemma RemainderChecked(s: State, orderId: Id, taskId: Id)
    requires taskId in s.tasks && s.tasks[taskId].machineId in s.machines && orderId in s.orders
    requires Verdict(s.machines[s.tasks[taskId].machineId], s.orders, OrdersOfTask(s.orders, taskId) - {orderId}).Ok?
    ensures BatchError(s, orderId, Some(taskId), ToPending).None?
  {
  }

  lemma NonEmptyBatch(m: Machine, orders: Orders, ids: set<Id>)
    requires ids <= orders.Keys && Verdict(m, orders, ids).Ok?
    ensures ids != {}
  {
    assert Rows(orders, Ascending(ids)) != [];
    assert Ascending(ids)[0] in ids;
  }
}
