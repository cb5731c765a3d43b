/** How the clauses of the board's invariant survive a change of a few rows, clause by clause. */
module BoardFrames {
  import opened Sequences
  import opened Records
  import opened ProductionRules
  import opened Tables
  import opened Queues
  import opened Board

  /** What each task holds after some orders are linked. */
  lemma OrdersAfterLinking(orders: Orders, ids: set<Id>, status: OrderStatus, taskId: Option<Id>, now: int, t: Id)
    requires ids <= orders.Keys
    ensures OrdersOfTask(Linked(orders, ids, status, taskId, now), t)
            == if taskId == Some(t) then OrdersOfTask(orders, t) + ids else OrdersOfTask(orders, t) - ids
  {
  }

  lemma LinkingKeepsContents(orders: Orders, ids: set<Id>, status: OrderStatus, taskId: Option<Id>, now: int)
    ensures ContentsKept(orders, Linked(orders, ids, status, taskId, now))
  {
  }

  ghost predicate ContentsKept(orders: Orders, orders': Orders) {
    forall o :: o in orders && o in orders' ==> orders[o].content == orders'[o].content
  }

  /** The task stands on the same machine with the same orders. */
  ghost predicate Untouched(s: State, s': State, t: Id) {
    && t in s.tasks && t in s'.tasks && s.tasks[t].machineId == s'.tasks[t].machineId
    && OrdersOfTask(s'.orders, t) == OrdersOfTask(s.orders, t)
  }

  lemma BatchKept(s: State, s': State, t: Id)
    requires s'.machines == s.machines && ContentsKept(s.orders, s'.orders)
    requires Untouched(s, s', t) && BatchValid(s, t)
    ensures BatchValid(s', t)
  {
    VerdictFrame(s.machines[s.tasks[t].machineId], s.orders, s'.orders, OrdersOfTask(s.orders, t));
  }

  /** An accepted set of orders makes the task that ends up holding it valid. */
  lemma BatchAccepted(s: State, s': State, t: Id, ids: set<Id>)
    requires s'.machines == s.machines && ContentsKept(s.orders, s'.orders)
    requires t in s'.tasks && s'.tasks[t].machineId in s.machines
    requires OrdersOfTask(s'.orders, t) == ids && ids <= s.orders.Keys
    requires Verdict(s.machines[s'.tasks[t].machineId], s.orders, ids).Ok?
    ensures BatchValid(s', t)
  {
    VerdictFrame(s.machines[s'.tasks[t].machineId], s.orders, s'.orders, ids);
  }

  lemma BatchesFrame(s: State, s': State, touched: set<Id>)
    requires BatchesValid(s) && s'.machines == s.machines && ContentsKept(s.orders, s'.orders)
    requires forall t :: t in s'.tasks && t !in touched ==> Untouched(s, s', t)
    requires forall t :: t in s'.tasks && t in touched ==> BatchValid(s', t)
    ensures BatchesValid(s')
  {
    forall t | t in s'.tasks
      ensures BatchValid(s', t)
    {
      if t !in touched {
        assert BatchValid(s, t);
        BatchKept(s, s', t);
      }
    }
  }

  // ----- rows and statuses -----

  /** Linking orders to one task, or to none, with the matching status. */
  lemma StatusesAfterLinking(s: State, s': State, ids: set<Id>, status: OrderStatus, taskId: Option<Id>, now: int)
    requires StatusesAgree(s) && ids <= s.orders.Keys
    requires s'.orders == Linked(s.orders, ids, status, taskId, now)
    requires match taskId
             case None => status == OrderPending
             case Some(t) =>
               t in s'.tasks && status == if s'.tasks[t].status == TaskDone then OrderDone else OrderProducing
    requires forall o :: o in s.orders && o !in ids && s.orders[o].taskId.Some? ==>
               var t := s.orders[o].taskId.value;
               t in s.tasks && t in s'.tasks && ((s.tasks[t].status == TaskDone) <==> (s'.tasks[t].status == TaskDone))
    ensures StatusesAgree(s')
  {
  }

  lemma RowsAfterLinking(s: State, s': State, ids: set<Id>, status: OrderStatus, taskId: Option<Id>, now: int)
    requires RowsKeyed(s) && s'.machines == s.machines && s'.orders == Linked(s.orders, ids, status, taskId, now)
    requires forall t :: t in s'.tasks ==> s'.tasks[t].id == t && s'.tasks[t].machineId in s.machines
    ensures RowsKeyed(s')
  {
  }

  /** Changing positions only. */
  lemma CoreFromSlots(s: State, tasks: Tasks)
    requires CoreInv(s) && tasks.Keys == s.tasks.Keys && forall t :: t in tasks ==> SameSlot(tasks[t], s.tasks[t])
    ensures CoreInv(s.(tasks := tasks))
  {
    var s' := s.(tasks := tasks);
    SlotsKeepRows(s, tasks);
    SlotsKeepStatuses(s, tasks);
    SlotsKeepProducing(s.tasks, tasks);
    BatchesFrame(s, s', {});
  }

  lemma SlotsKeepRows(s: State, tasks: Tasks)
    requires RowsKeyed(s) && tasks.Keys == s.tasks.Keys && forall t :: t in tasks ==> SameSlot(tasks[t], s.tasks[t])
    ensures RowsKeyed(s.(tasks := tasks))
  {
  }

  lemma SlotsKeepStatuses(s: State, tasks: Tasks)
    requires StatusesAgree(s) && tasks.Keys == s.tasks.Keys && forall t :: t in tasks ==> SameSlot(tasks[t], s.tasks[t])
    ensures StatusesAgree(s.(tasks := tasks))
  {
  }

  lemma SlotsKeepProducing(tasks: Tasks, tasks': Tasks)
    requires OneProducing(tasks) && tasks.Keys == tasks'.Keys
    requires forall t :: t in tasks' ==> SameSlot(tasks'[t], tasks[t])
    ensures OneProducing(tasks')
  {
  }

  // ----- queues -----

  /** A waiting task added behind a machine's queue. */
  lemma AddedTaskFits(tasks: Tasks, t: Task)
    requires PositionsDistinct(tasks) && OneProducing(tasks) && t.id !in tasks && t.status == TaskWaiting
    requires t.position >= 1 && forall u :: u in Active(tasks, t.machineId) ==> tasks[u].position < t.position
    ensures PositionsDistinct(tasks[t.id := t]) && OneProducing(tasks[t.id := t])
  {
    forall u | u in tasks && Unfinished(tasks[u]) && tasks[u].machineId == t.machineId
      ensures tasks[u].position < t.position
    {
      assert u in Active(tasks, t.machineId);
    }
  }

  /** A task restored behind its machine's queue, or changed in place. */
  lemma ChangedTaskFits(tasks: Tasks, t: Task)
    requires PositionsDistinct(tasks) && t.id in tasks && tasks[t.id].machineId == t.machineId
    requires t.position >= 1
    requires if tasks[t.id].status == TaskDone
             then forall u :: u in Active(tasks, t.machineId) ==> tasks[u].position < t.position
             else t.position == tasks[t.id].position
    ensures PositionsDistinct(tasks[t.id := t])
  {
    forall u | u in tasks && Unfinished(tasks[u]) && tasks[u].machineId == t.machineId && tasks[t.id].status == TaskDone
      ensures tasks[u].position < t.position
    {
      assert u in Active(tasks, t.machineId);
    }
  }

  lemma ChangedTaskProduces(tasks: Tasks, t: Task)
    requires OneProducing(tasks) && t.id in tasks && tasks[t.id].machineId == t.machineId
    requires t.status == TaskProducing ==> !OtherProducing(tasks, t)
    ensures OneProducing(tasks[t.id := t])
  {
  }

  lemma FewerTasks(tasks: Tasks, tasks': Tasks)
    requires forall t :: t in tasks' ==> t in tasks && tasks'[t] == tasks[t]
    ensures PositionsDistinct(tasks) ==> PositionsDistinct(tasks')
    ensures OneProducing(tasks) ==> OneProducing(tasks')
  {
  }

  lemma NextPositionPositive(tasks: Tasks, machineId: Id)
    requires PositionsDistinct(tasks)
    ensures NextPosition(tasks, Active(tasks, machineId)) >= 1
    ensures NextPosition(tasks, On(tasks, machineId)) >= 1
  {
    NextPositionIsPositive(tasks, Active(tasks, machineId));
    NextPositionIsPositive(tasks, On(tasks, machineId));
  }

  /** Renumbering a queue settles its positions and leaves those of every other machine alone. */
  lemma RenumberPositions(tasks: Tasks, machineId: Id, q: seq<Id>, aside: Option<Id>, now: int)
    requires PositionsDistinctBut(tasks, aside)
    requires NoDuplicates(q) && forall t :: t in q <==> t in Active(tasks, machineId)
    ensures PositionsDistinctBut(Renumber(tasks, q, now), if aside == Some(machineId) then None else aside)
  {
    var r := Renumber(tasks, q, now);
    RenumberAt(tasks, q, now);
    RenumberKeepsSlots(tasks, q, now);
    forall t, u | t in r && u in r && Contenders(r, t, u) && (aside == Some(machineId) || aside != Some(r[t].machineId))
      ensures r[t].position != r[u].position
    {
      if r[t].machineId == machineId {
        assert t in q && u in q;
      }
    }
    forall t | t in r
      ensures r[t].position >= 1
    {
      if t in q {
        var i :| 0 <= i < |q| && q[i] == t;
      }
    }
  }

  lemma InvAfterRenumber(s: State, machineId: Id, q: seq<Id>, now: int)
    requires CoreInv(s) && PositionsDistinctBut(s.tasks, Some(machineId))
    requires NoDuplicates(q) && forall t :: t in q <==> t in Active(s.tasks, machineId)
    ensures Inv(s.(tasks := Renumber(s.tasks, q, now)))
  {
    RenumberKeepsSlots(s.tasks, q, now);
    CoreFromSlots(s, Renumber(s.tasks, q, now));
    RenumberPositions(s.tasks, machineId, q, Some(machineId), now);
  }

  lemma InvAfterNormalise(s: State, machineId: Id, now: int)
    requires Inv(s)
    ensures Inv(s.(tasks := Normalised(s.tasks, machineId, now)))
    ensures Contiguous(Normalised(s.tasks, machineId, now), machineId)
  {
    var q := Queue(s.tasks, machineId);
    InOrderNoDuplicates(s.tasks, q);
    InvAfterRenumber(s, machineId, q, now);
    QueueAfterRenumber(s.tasks, machineId, q, now);
  }
}
