/** A machine's queue: its unfinished tasks by position, and what renumbering does to it. */
module Queues {
  import opened Sequences
  import opened Records
  import opened Tables

  type Tasks = map<Id, Task>

  predicate Earlier(tasks: Tasks, a: Id, b: Id)
    requires a in tasks && b in tasks
  {
    tasks[a].position < tasks[b].position || (tasks[a].position == tasks[b].position && a < b)
  }

  predicate IsEarliest(tasks: Tasks, ids: set<Id>, t: Id)
    requires ids <= tasks.Keys
  {
    t in ids && forall u :: u in ids && u != t ==> Earlier(tasks, t, u)
  }

  lemma {:induction false} EarliestExists(tasks: Tasks, ids: set<Id>)
    requires ids <= tasks.Keys && ids != {}
    ensures exists t :: IsEarliest(tasks, ids, t)
    decreases |ids|
  {
    var a :| a in ids;
    var others := ids - {a};
    assert ids == others + {a};
    if others == {} {
      assert IsEarliest(tasks, ids, a);
    } else {
      EarliestExists(tasks, others);
      var t :| IsEarliest(tasks, others, t);
      assert IsEarliest(tasks, ids, if Earlier(tasks, a, t) then a else t);
    }
  }

  function Earliest(tasks: Tasks, ids: set<Id>): (t: Id)
    requires ids <= tasks.Keys && ids != {}
    ensures IsEarliest(tasks, ids, t)
  {
    EarliestExists(tasks, ids);
    var t :| IsEarliest(tasks, ids, t);
    t
  }

  ghost predicate InOrder(tasks: Tasks, q: seq<Id>) {
    && (forall i :: 0 <= i < |q| ==> q[i] in tasks)
    && forall i, j :: 0 <= i < j < |q| ==> Earlier(tasks, q[i], q[j])
  }

  lemma FirstInOrder(tasks: Tasks, t: Id, rest: seq<Id>)
    requires t in tasks && InOrder(tasks, rest) && forall u :: u in rest ==> u in tasks && Earlier(tasks, t, u)
    ensures InOrder(tasks, [t] + rest)
    ensures forall x :: x in [t] + rest <==> x == t || x in rest
  {
    var q := [t] + rest;
    forall i, j | 0 <= i < j < |q|
      ensures Earlier(tasks, q[i], q[j])
    {
      assert q[j] == rest[j - 1];
    }
  }

  /** The tasks by position, then by id. */
  function ByPosition(tasks: Tasks, ids: set<Id>): (q: seq<Id>)
    requires ids <= tasks.Keys
    ensures |q| == |ids| && forall t :: t in q <==> t in ids
    ensures InOrder(tasks, q)
  {
    if ids == {} then []
    else
      var t := Earliest(tasks, ids);
      var rest := ByPosition(tasks, ids - {t});
      FirstInOrder(tasks, t, rest);
      [t] + rest
  }

  /** A listing in order is the only one. */
  lemma {:induction false} OneOrder(tasks: Tasks, p: seq<Id>, q: seq<Id>)
    requires InOrder(tasks, p) && InOrder(tasks, q) && forall t :: t in p <==> t in q
    ensures p == q
    decreases |p|
  {
    assert |q| > 0 ==> q[0] in q;
    if p != [] {
      assert p[0] in p && p[0] in q;
      assert q[0] in q && q[0] in p;
      assert p[0] == q[0];
      var a, b := p[1..], q[1..];
      assert p == [p[0]] + a && q == [q[0]] + b;
      assert p[0] !in a && q[0] !in b;
      assert forall t :: t in a <==> t in p && t != p[0];
      assert forall t :: t in b <==> t in q && t != q[0];
      OneOrder(tasks, a, b);
    }
  }

  lemma InOrderNoDuplicates(tasks: Tasks, q: seq<Id>)
    requires InOrder(tasks, q)
    ensures NoDuplicates(q)
  {
  }

  function On(tasks: Tasks, machineId: Id): set<Id> {
    set t | t in tasks && tasks[t].machineId == machineId
  }

  function Active(tasks: Tasks, machineId: Id): set<Id> {
    set t | t in tasks && tasks[t].machineId == machineId && tasks[t].status != TaskDone
  }

  /** The unfinished tasks of a machine, in queue order. */
  function Queue(tasks: Tasks, machineId: Id): (q: seq<Id>)
    ensures forall t :: t in q <==> t in Active(tasks, machineId)
    ensures InOrder(tasks, q)
  {
    ByPosition(tasks, Active(tasks, machineId))
  }

  /** One more than the greatest position, or 1 when there is none. */
  function NextPosition(tasks: Tasks, ids: set<Id>): (p: int)
    requires ids <= tasks.Keys
    ensures forall t :: t in ids ==> tasks[t].position < p
  {
    var q := ByPosition(tasks, ids);
    if q == [] then 1
    else
      var last := q[|q| - 1];
      assert last in q;
      assert forall t :: t in ids ==> t in q;
      tasks[last].position + 1
  }

  lemma NextPositionIsTight(tasks: Tasks, ids: set<Id>)
    requires ids <= tasks.Keys
    ensures ids == {} ==> NextPosition(tasks, ids) == 1
    ensures ids != {} ==> exists t :: t in ids && NextPosition(tasks, ids) == tasks[t].position + 1
  {
    var q := ByPosition(tasks, ids);
    if q != [] {
      assert q[|q| - 1] in q;
    }
  }

  lemma NextPositionIsPositive(tasks: Tasks, ids: set<Id>)
    requires ids <= tasks.Keys && forall t :: t in ids ==> tasks[t].position >= 1
    ensures NextPosition(tasks, ids) >= 1
  {
    NextPositionIsTight(tasks, ids);
  }

  lemma NextPositionIs(tasks: Tasks, ids: set<Id>, p: int)
    requires ids <= tasks.Keys && forall t :: t in ids ==> tasks[t].position < p
    requires if ids == {} then p == 1 else exists t :: t in ids && p == tasks[t].position + 1
    ensures NextPosition(tasks, ids) == p
  {
    NextPositionIsTight(tasks, ids);
  }

  /** The next position depends only on which tasks there are and on their positions. */
  lemma NextPositionFrame(tasks: Tasks, tasks': Tasks, ids: set<Id>)
    requires ids <= tasks.Keys && ids <= tasks'.Keys
    requires forall t :: t in ids ==> tasks[t].position == tasks'[t].position
    ensures NextPosition(tasks, ids) == NextPosition(tasks', ids)
  {
    NextPositionIsTight(tasks, ids);
    NextPositionIs(tasks', ids, NextPosition(tasks, ids));
  }

  lemma NextPositionAfter(tasks: Tasks, t: Task, machineId: Id)
    requires t.id !in tasks && t.position == NextPosition(tasks, On(tasks, t.machineId))
    ensures NextPosition(tasks[t.id := t], On(tasks[t.id := t], machineId))
            == NextPosition(tasks, On(tasks, machineId)) + if machineId == t.machineId then 1 else 0
  {
    var tasks', ids := tasks[t.id := t], On(tasks, machineId);
    if machineId == t.machineId {
      assert On(tasks', machineId) == ids + {t.id};
      NextPositionIs(tasks', ids + {t.id}, t.position + 1);
    } else {
      assert On(tasks', machineId) == ids;
      NextPositionFrame(tasks, tasks', ids);
    }
  }

  /** Setting a position touches the row only when it changes it. */
  function Placed(t: Task, position: int, now: int): Task {
    if t.position == position then t else t.(position := position, updatedAt := now)
  }

  /** Positions 1, 2, ... along q. */
  function Renumber(tasks: Tasks, q: seq<Id>, now: int): (r: Tasks)
    requires forall t :: t in q ==> t in tasks
    ensures r.Keys == tasks.Keys
    ensures forall t :: t in tasks && t !in q ==> r[t] == tasks[t]
  {
    if q == [] then tasks
    else
      var n := |q| - 1;
      var r := Renumber(tasks, q[..n], now);
      r[q[n] := Placed(r[q[n]], n + 1, now)]
  }

  lemma {:induction false} RenumberAt(tasks: Tasks, q: seq<Id>, now: int)
    requires NoDuplicates(q) && forall t :: t in q ==> t in tasks
    ensures forall i :: 0 <= i < |q| ==> Renumber(tasks, q, now)[q[i]] == Placed(tasks[q[i]], i + 1, now)
  {
    if q != [] {
      var n := |q| - 1;
      RenumberAt(tasks, q[..n], now);
      forall i | 0 <= i < |q|
        ensures Renumber(tasks, q, now)[q[i]] == Placed(tasks[q[i]], i + 1, now)
      {
        if i < n {
          assert q[..n][i] == q[i] && q[i] != q[n];
        } else {
          assert q[n] !in q[..n];
        }
      }
    }
  }

  /** Same machine and status. */
  predicate SameSlot(a: Task, b: Task) {
    a.id == b.id && a.machineId == b.machineId && a.status == b.status
  }

  lemma RenumberKeepsSlots(tasks: Tasks, q: seq<Id>, now: int)
    requires NoDuplicates(q) && forall t :: t in q ==> t in tasks
    ensures forall t :: t in tasks ==> SameSlot(Renumber(tasks, q, now)[t], tasks[t])
    ensures forall m :: Active(Renumber(tasks, q, now), m) == Active(tasks, m)
  {
    RenumberAt(tasks, q, now);
    forall t | t in tasks
      ensures SameSlot(Renumber(tasks, q, now)[t], tasks[t])
    {
      if t in q {
        var i :| 0 <= i < |q| && q[i] == t;
      }
    }
  }

  /** The machine's unfinished tasks stand at positions 1 to n along its queue. */
  ghost predicate Contiguous(tasks: Tasks, machineId: Id) {
    forall i :: 0 <= i < |Queue(tasks, machineId)| ==> tasks[Queue(tasks, machineId)[i]].position == i + 1
  }

  /** Renumbering along a listing of a machine's unfinished tasks makes that listing its queue, at 1 to n. */
  lemma QueueAfterRenumber(tasks: Tasks, machineId: Id, q: seq<Id>, now: int)
    requires NoDuplicates(q) && forall t :: t in q <==> t in Active(tasks, machineId)
    ensures var r := Renumber(tasks, q, now); Queue(r, machineId) == q && Contiguous(r, machineId)
  {
    var r := Renumber(tasks, q, now);
    RenumberAt(tasks, q, now);
    RenumberKeepsSlots(tasks, q, now);
    NumberedInOrder(r, q);
    OneOrder(r, Queue(r, machineId), q);
  }

  lemma NumberedInOrder(tasks: Tasks, q: seq<Id>)
    requires forall i :: 0 <= i < |q| ==> q[i] in tasks && tasks[q[i]].position == i + 1
    ensures InOrder(tasks, q)
  {
  }

  /** A queue depends only on which tasks are unfinished there and on their positions. */
  lemma QueueFrame(tasks: Tasks, tasks': Tasks, machineId: Id)
    requires Active(tasks, machineId) == Active(tasks', machineId)
    requires forall t :: t in Active(tasks, machineId) ==> tasks[t].position == tasks'[t].position
    ensures Queue(tasks, machineId) == Queue(tasks', machineId)
  {
    var q := Queue(tasks, machineId);
    forall i | 0 <= i < |q|
      ensures q[i] in Active(tasks, machineId)
    {
      assert q[i] in q;
    }
    assert InOrder(tasks', q);
    OneOrder(tasks', q, Queue(tasks', machineId));
  }

  function Remove(q: seq<Id>, t: Id): seq<Id> {
    if q == [] then [] else if q[0] == t then Remove(q[1..], t) else [q[0]] + Remove(q[1..], t)
  }

  lemma {:induction false} RemoveMembers(q: seq<Id>, t: Id)
    ensures forall x :: x in Remove(q, t) <==> x in q && x != t
    ensures |Remove(q, t)| <= |q|
  {
    if q != [] {
      RemoveMembers(q[1..], t);
      assert q == [q[0]] + q[1..];
    }
  }

  lemma {:induction false} RemoveInOrder(tasks: Tasks, q: seq<Id>, t: Id)
    requires InOrder(tasks, q)
    ensures InOrder(tasks, Remove(q, t))
  {
    if q != [] {
      RemoveInOrder(tasks, q[1..], t);
      RemoveMembers(q[1..], t);
      var rest := Remove(q[1..], t);
      forall i | 0 <= i < |rest|
        ensures Earlier(tasks, q[0], rest[i])
      {
        assert rest[i] in rest;
        var j :| 0 <= j < |q[1..]| && q[1..][j] == rest[i];
        assert q[j + 1] == rest[i];
      }
    }
  }

  /** list.insert with the index clamped to the end. */
  function InsertAt(q: seq<Id>, index: nat, t: Id): seq<Id> {
    var i := if index < |q| then index else |q|;
    q[..i] + [t] + q[i..]
  }

  lemma InsertMembers(q: seq<Id>, index: nat, t: Id)
    ensures forall x :: x in InsertAt(q, index, t) <==> x in q || x == t
    ensures NoDuplicates(q) && t !in q ==> NoDuplicates(InsertAt(q, index, t))
  {
    var i := if index < |q| then index else |q|;
    assert q == q[..i] + q[i..];
    var r := InsertAt(q, index, t);
    assert forall k :: 0 <= k < |r| ==> r[k] == if k < i then q[k] else if k == i then t else q[k - 1];
  }
}
