/** Rows looked up by id, listed in a fixed order, and the production rules applied to sets of orders. */
module Tables {
  import opened Sequences
  import opened Records
  import opened ProductionRules

  function SetOf(ids: seq<Id>): (s: set<Id>)
    ensures forall x :: x in s <==> x in ids
  {
    set x | x in ids
  }

  lemma SetOfSnoc(ids: seq<Id>, x: Id)
    ensures SetOf(ids + [x]) == SetOf(ids) + {x}
  {
  }

  predicate IsLeast(ids: set<Id>, m: Id) { m in ids && forall x :: x in ids ==> m <= x }

  lemma {:induction false} LeastExists(ids: set<Id>)
    requires ids != {}
    ensures exists m :: IsLeast(ids, m)
    decreases |ids|
  {
    var a :| a in ids;
    var others := ids - {a};
    assert ids == others + {a};
    if others == {} {
      assert IsLeast(ids, a);
    } else {
      LeastExists(others);
      var m :| IsLeast(others, m);
      assert IsLeast(ids, if a <= m then a else m);
    }
  }

  function Least(ids: set<Id>): (m: Id)
    requires ids != {}
    ensures IsLeast(ids, m)
  {
    LeastExists(ids);
    var m :| IsLeast(ids, m);
    m
  }

  lemma NoDuplicatesPrepend(m: Id, rest: seq<Id>)
    requires NoDuplicates(rest) && m !in rest
    ensures NoDuplicates([m] + rest)
    ensures forall x :: x in [m] + rest <==> x == m || x in rest
  {
  }

  /** The ids in ascending order. */
  function Ascending(ids: set<Id>): (r: seq<Id>)
    ensures NoDuplicates(r) && |r| == |ids|
    ensures forall x :: x in r <==> x in ids
  {
    if ids == {} then []
    else
      var m := Least(ids);
      var rest := Ascending(ids - {m});
      NoDuplicatesPrepend(m, rest);
      [m] + rest
  }

  type Orders = map<Id, Order>

  function Rows(orders: Orders, ids: seq<Id>): (r: seq<Order>)
    requires forall i :: i in ids ==> i in orders
    ensures |r| == |ids| && forall k :: 0 <= k < |r| ==> r[k] == orders[ids[k]]
  {
    seq(|ids|, k requires 0 <= k < |ids| => orders[ids[k]])
  }

  /** The production rules applied to a set of orders, as listed by id. */
  function Verdict(m: Machine, orders: Orders, ids: set<Id>): Result<real, RuleError>
    requires ids <= orders.Keys
  {
    ValidateBatch(m, Rows(orders, Ascending(ids)))
  }

  lemma {:induction false} RowsMultiset(orders: Orders, a: seq<Id>, b: seq<Id>)
    requires forall i :: i in a || i in b ==> i in orders
    requires multiset(a) == multiset(b)
    ensures multiset(Rows(orders, a)) == multiset(Rows(orders, b))
    decreases |a|
  {
    if a == [] {
      assert |multiset(b)| == 0;
    } else {
      var x, front := a[|a| - 1], a[..|a| - 1];
      assert a == front + [x];
      assert x in multiset(b);
      var i :| 0 <= i < |b| && b[i] == x;
      var rest := b[..i] + b[i + 1..];
      assert b == b[..i] + [x] + b[i + 1..];
      assert multiset(rest) == multiset(b) - multiset{x};
      RowsMultiset(orders, front, rest);
      RowsConcat(orders, front, [x]);
      RowsAround(orders, b[..i], x, b[i + 1..]);
    }
  }

  lemma RowsAround(orders: Orders, a: seq<Id>, x: Id, b: seq<Id>)
    requires x in orders && forall i :: i in a || i in b ==> i in orders
    ensures Rows(orders, [x]) == [orders[x]]
    ensures multiset(Rows(orders, a + [x] + b)) == multiset(Rows(orders, a + b)) + multiset{orders[x]}
  {
    RowsConcat(orders, a, [x]);
    RowsConcat(orders, a + [x], b);
    RowsConcat(orders, a, b);
  }

  lemma RowsConcat(orders: Orders, a: seq<Id>, b: seq<Id>)
    requires forall i :: i in a || i in b ==> i in orders
    ensures Rows(orders, a + b) == Rows(orders, a) + Rows(orders, b)
  {
  }

  lemma {:induction false} NoDuplicatesMultiset(s: seq<Id>)
    requires NoDuplicates(s)
    ensures forall x :: multiset(s)[x] == if x in s then 1 else 0
  {
    if s != [] {
      var n := |s| - 1;
      NoDuplicatesMultiset(s[..n]);
      assert s == s[..n] + [s[n]];
    }
  }

  lemma SameMembersSameMultiset(a: seq<Id>, b: seq<Id>)
    requires NoDuplicates(a) && NoDuplicates(b) && forall x :: x in a <==> x in b
    ensures multiset(a) == multiset(b)
  {
    NoDuplicatesMultiset(a);
    NoDuplicatesMultiset(b);
    assert forall x :: multiset(a)[x] == multiset(b)[x];
  }

  /** Any listing of the set gives the same verdict. */
  lemma VerdictOfListing(m: Machine, orders: Orders, ids: seq<Id>)
    requires NoDuplicates(ids) && forall i :: i in ids ==> i in orders
    ensures SetOf(ids) <= orders.Keys && ValidateBatch(m, Rows(orders, ids)) == Verdict(m, orders, SetOf(ids))
  {
    var sorted := Ascending(SetOf(ids));
    assert forall x :: x in ids <==> x in SetOf(ids);
    SameMembersSameMultiset(ids, sorted);
    RowsMultiset(orders, ids, sorted);
    VerdictIgnoresOrder(m, Rows(orders, ids), Rows(orders, sorted));
  }

  /** The rules read only what the orders ask for: not their status, links or timestamps. */
  lemma VerdictFromContents(m: Machine, a: seq<Order>, b: seq<Order>)
    requires |a| == |b| && forall k :: 0 <= k < |a| ==> a[k].content == b[k].content
    ensures ValidateBatch(m, a) == ValidateBatch(m, b)
  {
    var ps, qs := ProfilesOf(a), ProfilesOf(b);
    assert forall k :: 0 <= k < |ps| ==> SameProfile(ps[k], qs[k]) && SameProfile(qs[k], ps[k]);
    SameTotal(ps, qs);
    if ps != [] {
      ChecksCarryOver(m, ps, qs);
      ChecksCarryOver(m, qs, ps);
    }
    VerdictFromChecks(m, ps, qs);
  }

  predicate SameProfile(p: Profile, q: Profile) {
    p.width == q.width && p.signature == q.signature && p.order.content == q.order.content
  }

  lemma {:induction false} SameTotal(ps: seq<Profile>, qs: seq<Profile>)
    requires |ps| == |qs| && forall k :: 0 <= k < |ps| ==> SameProfile(ps[k], qs[k])
    ensures TotalWidth(ps) == TotalWidth(qs)
  {
    if ps != [] {
      SameTotal(ps[..|ps| - 1], qs[..|qs| - 1]);
    }
  }

  lemma Partners(ps: seq<Profile>, qs: seq<Profile>)
    requires |ps| == |qs| && forall k :: 0 <= k < |ps| ==> SameProfile(ps[k], qs[k])
    ensures forall p :: p in ps ==> exists q :: q in qs && SameProfile(p, q)
  {
    forall p | p in ps
      ensures exists q :: q in qs && SameProfile(p, q)
    {
      var k :| 0 <= k < |ps| && ps[k] == p;
      assert qs[k] in qs && SameProfile(p, qs[k]);
    }
  }

  lemma VerdictFromChecks(m: Machine, ps: seq<Profile>, qs: seq<Profile>)
    requires |ps| == |qs| && TotalWidth(ps) == TotalWidth(qs)
    requires ps != [] ==>
               && OneUnitKind(ps) == OneUnitKind(qs) && AllCategories(m, ps) == AllCategories(m, qs)
               && AllPatterns(m, ps) == AllPatterns(m, qs) && AllWidths(ps) == AllWidths(qs)
               && AllComplete(ps) == AllComplete(qs) && OneSignature(ps) == OneSignature(qs)
    ensures ValidateProfiles(m, ps) == ValidateProfiles(m, qs)
  {
  }

  /** What holds of every profile of ps holds of every profile of qs. */
  lemma ChecksCarryOver(m: Machine, ps: seq<Profile>, qs: seq<Profile>)
    requires ps != [] && |ps| == |qs| && forall k :: 0 <= k < |qs| ==> SameProfile(qs[k], ps[k])
    ensures OneUnitKind(ps) ==> OneUnitKind(qs)
    ensures AllCategories(m, ps) ==> AllCategories(m, qs)
    ensures AllPatterns(m, ps) ==> AllPatterns(m, qs)
    ensures AllWidths(ps) ==> AllWidths(qs)
    ensures AllComplete(ps) ==> AllComplete(qs)
    ensures OneSignature(ps) ==> OneSignature(qs)
  {
    Partners(qs, ps);
  }

  lemma VerdictFrame(m: Machine, orders: Orders, orders': Orders, ids: set<Id>)
    requires ids <= orders.Keys && ids <= orders'.Keys
    requires forall i :: i in ids ==> orders[i].content == orders'[i].content
    ensures Verdict(m, orders, ids) == Verdict(m, orders', ids)
  {
    VerdictFromContents(m, Rows(orders, Ascending(ids)), Rows(orders', Ascending(ids)));
  }
}
