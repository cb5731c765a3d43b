/** Anchored greedy packing of one machine (planner.py, _select_batch), over the widths of the remaining orders. */
module Packer {
  import opened Sequences

  predicate Positive(ws: seq<real>) {
    forall k :: 0 <= k < |ws| ==> ws[k] > 0.0
  }

  /** The total width of the positions of s below n. */
  ghost function WidthOf(ws: seq<real>, s: set<nat>, n: nat): real
    requires n <= |ws|
  {
    if n == 0 then 0.0
    else WidthOf(ws, s, n - 1) + if n - 1 in s then ws[n - 1] else 0.0
  }

  /** The positions of s below n, ascending: the index tuple of a batch. */
  ghost function Indexes(s: set<nat>, n: nat): (r: seq<nat>)
    ensures forall k :: k in r <==> k in s && k < n
  {
    if n == 0 then [] else Indexes(s, n - 1) + if n - 1 in s then [n - 1] else []
  }

  /** The elements of xs at the positions of s, in their order. */
  ghost function Pick<T(!new)>(xs: seq<T>, s: set<nat>): (r: seq<T>)
    ensures |r| <= |xs|
    ensures forall x :: x in r <==> exists k :: 0 <= k < |xs| && k in s && xs[k] == x
  {
    if xs == [] then []
    else
      var n := |xs| - 1;
      var rest := Pick(xs[..n], s);
      assert forall k :: 0 <= k < n ==> xs[..n][k] == xs[k];
      rest + if n in s then [xs[n]] else []
  }

  lemma {:induction false} PickNothing<T(!new)>(xs: seq<T>)
    ensures Pick(xs, {}) == []
  {
    if xs != [] {
      PickNothing(xs[..|xs| - 1]);
    }
  }

  /** What the scan takes from position k on when the width so far is total; the anchor a was placed first. */
  ghost function Scan(ws: seq<real>, a: nat, hi: real, k: nat, total: real): (s: set<nat>)
    requires k <= |ws|
    ensures forall j :: j in s ==> k <= j < |ws| && j != a
    decreases |ws| - k
  {
    if k == |ws| then {}
    else if k == a || total + ws[k] > hi then Scan(ws, a, hi, k + 1, total)
    else {k} + Scan(ws, a, hi, k + 1, total + ws[k])
  }

  /** The batch that grows from anchor a. */
  ghost function Pack(ws: seq<real>, a: nat, hi: real): (s: set<nat>)
    requires a < |ws|
    ensures a in s && forall j :: j in s ==> j < |ws|
  {
    {a} + Scan(ws, a, hi, 0, ws[a])
  }

  ghost function PackWidth(ws: seq<real>, a: nat, hi: real): real
    requires a < |ws|
  {
    WidthOf(ws, Pack(ws, a, hi), |ws|)
  }

  /** Anchor a fits and its batch reaches the minimum width. */
  ghost predicate Feasible(ws: seq<real>, lo: real, hi: real, a: nat) {
    a < |ws| && ws[a] <= hi && PackWidth(ws, a, hi) >= lo
  }

  /** The batch of anchor a is wider than that of b, or as wide with a smaller index tuple. */
  ghost predicate Better(ws: seq<real>, hi: real, a: nat, b: nat)
    requires a < |ws| && b < |ws|
  {
    || PackWidth(ws, a, hi) > PackWidth(ws, b, hi)
    || (PackWidth(ws, a, hi) == PackWidth(ws, b, hi)
        && LexLess(Indexes(Pack(ws, a, hi), |ws|), Indexes(Pack(ws, b, hi), |ws|)))
  }

  /** Anchor a is feasible and no feasible anchor is better. */
  ghost predicate IsBest(ws: seq<real>, lo: real, hi: real, a: nat) {
    && Feasible(ws, lo, hi, a)
    && forall b :: Feasible(ws, lo, hi, b) ==> !Better(ws, hi, b, a)
  }

  /** The selected positions; empty when no anchor is feasible. */
  ghost function Best(ws: seq<real>, lo: real, hi: real): (s: set<nat>)
    ensures (forall a :: !Feasible(ws, lo, hi, a)) ==> s == {}
    ensures (exists a :: Feasible(ws, lo, hi, a)) ==>
              exists a :: IsBest(ws, lo, hi, a) && s == Pack(ws, a, hi)
  {
    if exists a :: Feasible(ws, lo, hi, a) then
      BestExists(ws, lo, hi);
      var a :| IsBest(ws, lo, hi, a);
      Pack(ws, a, hi)
    else {}
  }

  // ----- width sums over position sets -----

  lemma {:induction false} WidthOfAdd(ws: seq<real>, s: set<nat>, k: nat, n: nat)
    requires n <= |ws| && k !in s && k < |ws|
    ensures WidthOf(ws, s + {k}, n) == WidthOf(ws, s, n) + if k < n then ws[k] else 0.0
  {
    if n > 0 {
      WidthOfAdd(ws, s, k, n - 1);
    }
  }

  lemma {:induction false} WidthOfEmpty(ws: seq<real>, n: nat)
    requires n <= |ws|
    ensures WidthOf(ws, {}, n) == 0.0
  {
    if n > 0 {
      WidthOfEmpty(ws, n - 1);
    }
  }

  lemma {:induction false} WidthOfMonotone(ws: seq<real>, s: set<nat>, t: set<nat>, n: nat)
    requires n <= |ws| && Positive(ws)
    requires forall k :: k in s && k < n ==> k in t
    ensures WidthOf(ws, s, n) <= WidthOf(ws, t, n)
  {
    if n > 0 {
      WidthOfMonotone(ws, s, t, n - 1);
    }
  }

  lemma {:induction false} WidthOfMember(ws: seq<real>, s: set<nat>, k: nat, n: nat)
    requires k < n <= |ws| && Positive(ws) && k in s
    ensures WidthOf(ws, s, n) >= ws[k]
  {
    WidthOfMonotone(ws, {k}, s, n);
    WidthOfEmpty(ws, n);
    WidthOfAdd(ws, {}, k, n);
    assert {} + {k} == {k};
  }

  // ----- one anchored pack -----

  /** The scan never overflows, and whatever it skips would have. */
  lemma {:induction false} ScanLimits(ws: seq<real>, a: nat, hi: real, k: nat, total: real, base: set<nat>)
    requires k <= |ws| && a < |ws| && Positive(ws) && total <= hi
    requires forall j :: j in base ==> j < k || j == a
    requires a in base && WidthOf(ws, base, |ws|) == total
    ensures var s := base + Scan(ws, a, hi, k, total);
            var w := WidthOf(ws, s, |ws|);
            total <= w <= hi && forall j :: k <= j < |ws| && j !in s ==> w + ws[j] > hi
    decreases |ws| - k
  {
    if k == |ws| {
      assert base + {} == base;
    } else if k == a || total + ws[k] > hi {
      ScanLimits(ws, a, hi, k + 1, total, base);
    } else {
      WidthOfAdd(ws, base, k, |ws|);
      ScanLimits(ws, a, hi, k + 1, total + ws[k], base + {k});
      assert base + {k} + Scan(ws, a, hi, k + 1, total + ws[k]) == base + Scan(ws, a, hi, k, total);
    }
  }

  /** A pack stays within the maximum and is maximal: no order left out still fits. */
  lemma {:induction false} PackMaximal(ws: seq<real>, a: nat, hi: real)
    requires a < |ws| && Positive(ws) && ws[a] <= hi
    ensures ws[a] <= PackWidth(ws, a, hi) <= hi
    ensures forall j :: 0 <= j < |ws| && j !in Pack(ws, a, hi) ==> PackWidth(ws, a, hi) + ws[j] > hi
  {
    WidthOfEmpty(ws, |ws|);
    WidthOfAdd(ws, {}, a, |ws|);
    assert {} + {a} == {a};
    ScanLimits(ws, a, hi, 0, ws[a], {a});
  }

  // ----- the best pack -----

  lemma BetterTransitive(ws: seq<real>, hi: real, a: nat, b: nat, c: nat)
    requires a < |ws| && b < |ws| && c < |ws|
    requires !Better(ws, hi, b, a) && !Better(ws, hi, c, b)
    ensures !Better(ws, hi, c, a)
  {
    var x, y, z := Indexes(Pack(ws, a, hi), |ws|), Indexes(Pack(ws, b, hi), |ws|), Indexes(Pack(ws, c, hi), |ws|);
    if Better(ws, hi, c, a) {
      LexTotal(x, y);
      LexTotal(y, z);
      if LexLess(x, y) && LexLess(y, z) {
        LexTransitive(x, y, z);
      }
      if LexLess(z, x) {
        if LexLess(x, z) {
          LexTransitive(x, z, x);
        }
        LexIrreflexive(x);
      }
    }
  }

  lemma {:induction false} BestBelow(ws: seq<real>, lo: real, hi: real, n: nat) returns (best: nat)
    requires exists a: nat :: a < n && Feasible(ws, lo, hi, a)
    ensures best < n && Feasible(ws, lo, hi, best)
    ensures forall b: nat :: b < n && Feasible(ws, lo, hi, b) ==> !Better(ws, hi, b, best)
  {
    if exists a: nat :: a < n - 1 && Feasible(ws, lo, hi, a) {
      best := BestBelow(ws, lo, hi, n - 1);
      if Feasible(ws, lo, hi, n - 1) && Better(ws, hi, n - 1, best) {
        forall b: nat | b < n && Feasible(ws, lo, hi, b)
          ensures !Better(ws, hi, b, n - 1)
        {
          BetterAsymmetric(ws, hi, n - 1, best);
          if b < n - 1 {
            BetterTransitive(ws, hi, n - 1, best, b);
          } else {
            BetterAsymmetric(ws, hi, b, b);
          }
        }
        best := n - 1;
      }
    } else {
      best := n - 1;
      BetterAsymmetric(ws, hi, best, best);
    }
  }

  lemma BetterAsymmetric(ws: seq<real>, hi: real, a: nat, b: nat)
    requires a < |ws| && b < |ws|
    ensures Better(ws, hi, a, b) ==> !Better(ws, hi, b, a)
  {
    var x, y := Indexes(Pack(ws, a, hi), |ws|), Indexes(Pack(ws, b, hi), |ws|);
    if LexLess(x, y) && LexLess(y, x) {
      LexTransitive(x, y, x);
      LexIrreflexive(x);
    }
  }

  lemma BestExists(ws: seq<real>, lo: real, hi: real)
    requires exists a :: Feasible(ws, lo, hi, a)
    ensures exists a :: IsBest(ws, lo, hi, a)
  {
    var best := BestBelow(ws, lo, hi, |ws|);
    assert IsBest(ws, lo, hi, best);
  }

  lemma SamePack(ws: seq<real>, lo: real, hi: real, a: nat, b: nat)
    requires IsBest(ws, lo, hi, a) && IsBest(ws, lo, hi, b)
    ensures Pack(ws, a, hi) == Pack(ws, b, hi)
  {
    var s, t := Pack(ws, a, hi), Pack(ws, b, hi);
    LexTotal(Indexes(s, |ws|), Indexes(t, |ws|));
    assert forall k :: k in s <==> k in Indexes(s, |ws|);
    assert forall k :: k in t <==> k in Indexes(t, |ws|);
  }

  /** All best anchors grow the same batch. */
  lemma BestUnique(ws: seq<real>, lo: real, hi: real, a: nat)
    requires IsBest(ws, lo, hi, a)
    ensures Best(ws, lo, hi) == Pack(ws, a, hi)
  {
    var b: nat :| IsBest(ws, lo, hi, b) && Best(ws, lo, hi) == Pack(ws, b, hi);
    SamePack(ws, lo, hi, a, b);
  }

  // ----- what is selected -----

  /** The scan takes an order exactly when it fits beside the anchor and what was taken before it. */
  lemma {:induction false} ScanGreedy(ws: seq<real>, a: nat, hi: real, k: nat, total: real, base: set<nat>, j: nat)
    requires k <= j < |ws| && a < |ws| && j != a
    requires (forall i :: i in base ==> i < k || i == a) && a in base
    requires total == ws[a] + WidthOf(ws, base - {a}, k)
    ensures var s := base + Scan(ws, a, hi, k, total);
            j in Scan(ws, a, hi, k, total) <==> ws[a] + WidthOf(ws, s - {a}, j) + ws[j] <= hi
    decreases |ws| - k
  {
    var s := base + Scan(ws, a, hi, k, total);
    SameBelow(ws, base - {a}, s - {a}, k);
    if j > k {
      if k == a || total + ws[k] > hi {
        assert WidthOf(ws, base - {a}, k + 1) == WidthOf(ws, base - {a}, k);
        ScanGreedy(ws, a, hi, k + 1, total, base, j);
      } else {
        SameBelow(ws, base - {a}, base + {k} - {a}, k);
        ScanGreedy(ws, a, hi, k + 1, total + ws[k], base + {k}, j);
        assert base + {k} + Scan(ws, a, hi, k + 1, total + ws[k]) == s;
      }
    }
  }

  lemma {:induction false} SameBelow(ws: seq<real>, s: set<nat>, t: set<nat>, n: nat)
    requires n <= |ws| && forall k :: 0 <= k < n ==> (k in s <==> k in t)
    ensures WidthOf(ws, s, n) == WidthOf(ws, t, n)
  {
    if n > 0 {
      SameBelow(ws, s, t, n - 1);
    }
  }

  /** Apart from its anchor a pack holds exactly the orders that fit beside the anchor and the earlier ones it holds. */
  lemma PackGreedy(ws: seq<real>, a: nat, hi: real, j: nat)
    requires a < |ws| && j < |ws| && j != a
    ensures j in Pack(ws, a, hi) <==> ws[a] + WidthOf(ws, Pack(ws, a, hi) - {a}, j) + ws[j] <= hi
  {
    assert {a} - {a} == {};
    ScanGreedy(ws, a, hi, 0, ws[a], {a}, j);
  }

  /** No pack that reaches the minimum is wider than the selected one, and none as wide has a smaller index tuple. */
  lemma BestIsWidest(ws: seq<real>, lo: real, hi: real, a: nat)
    requires a < |ws| && ws[a] <= hi && PackWidth(ws, a, hi) >= lo
    ensures PackWidth(ws, a, hi) <= WidthOf(ws, Best(ws, lo, hi), |ws|)
    ensures PackWidth(ws, a, hi) == WidthOf(ws, Best(ws, lo, hi), |ws|) ==>
              var best, other := Indexes(Best(ws, lo, hi), |ws|), Indexes(Pack(ws, a, hi), |ws|);
              best == other || exists k: nat :: DiffersAt(best, other, k)
  {
    assert Feasible(ws, lo, hi, a);
    BestExists(ws, lo, hi);
    var b: nat :| IsBest(ws, lo, hi, b);
    BestUnique(ws, lo, hi, b);
    NotBetter(ws, hi, a, b);
  }

  lemma NotBetter(ws: seq<real>, hi: real, a: nat, b: nat)
    requires a < |ws| && b < |ws| && !Better(ws, hi, a, b)
    ensures PackWidth(ws, a, hi) <= PackWidth(ws, b, hi)
    ensures PackWidth(ws, a, hi) == PackWidth(ws, b, hi) ==>
              var best, other := Indexes(Pack(ws, b, hi), |ws|), Indexes(Pack(ws, a, hi), |ws|);
              best == other || exists k: nat :: DiffersAt(best, other, k)
  {
    var best, other := Indexes(Pack(ws, b, hi), |ws|), Indexes(Pack(ws, a, hi), |ws|);
    LexTotal(best, other);
    LexLessMeans(best, other);
  }

  /** The index tuple ascends, and a batch lists the orders at its indexes. */
  lemma {:induction false} PickIndexed<T(!new)>(xs: seq<T>, s: set<nat>)
    ensures |Pick(xs, s)| == |Indexes(s, |xs|)|
    ensures forall j :: 0 <= j < |Pick(xs, s)| ==> Indexes(s, |xs|)[j] < |xs| && Pick(xs, s)[j] == xs[Indexes(s, |xs|)[j]]
    ensures forall i, j :: 0 <= i < j < |Indexes(s, |xs|)| ==> Indexes(s, |xs|)[i] < Indexes(s, |xs|)[j]
  {
    if xs != [] {
      var n := |xs| - 1;
      PickIndexed(xs[..n], s);
      var before := Indexes(s, n);
      assert forall j :: 0 <= j < |before| ==> before[j] in before;
    }
  }

  // ----- completeness -----

  /** Some non-empty set of the orders has a total width within [lo, hi]. */
  ghost predicate Packable(ws: seq<real>, lo: real, hi: real) {
    exists s: set<nat> :: PackableAs(ws, lo, hi, s)
  }

  ghost predicate PackableAs(ws: seq<real>, lo: real, hi: real, s: set<nat>) {
    s != {} && (forall k :: k in s ==> k < |ws|) && lo <= WidthOf(ws, s, |ws|) <= hi
  }

  lemma PackedIsPackable(ws: seq<real>, lo: real, hi: real)
    requires Positive(ws) && Best(ws, lo, hi) != {}
    ensures Packable(ws, lo, hi)
  {
    var a :| IsBest(ws, lo, hi, a) && Best(ws, lo, hi) == Pack(ws, a, hi);
    PackMaximal(ws, a, hi);
    assert PackableAs(ws, lo, hi, Pack(ws, a, hi));
  }

  /** If no fitting order is wider than the slack hi - lo, the packer finds a batch exactly when one exists. */
  lemma CompleteWithinSlack(ws: seq<real>, lo: real, hi: real)
    requires Positive(ws)
    requires forall k :: 0 <= k < |ws| && ws[k] <= hi ==> ws[k] <= hi - lo
    ensures Best(ws, lo, hi) != {} <==> Packable(ws, lo, hi)
  {
    if Best(ws, lo, hi) != {} {
      PackedIsPackable(ws, lo, hi);
    }
    if Packable(ws, lo, hi) {
      var s :| PackableAs(ws, lo, hi, s);
      var a :| a in s;
      forall k | k in s
        ensures ws[k] <= hi
      {
        WidthOfMember(ws, s, k, |ws|);
      }
      PackMaximal(ws, a, hi);
      if !Feasible(ws, lo, hi, a) {
        forall k | k in s
          ensures k in Pack(ws, a, hi)
        {
          assert ws[k] <= hi - lo;
        }
        WidthOfMonotone(ws, s, Pack(ws, a, hi), |ws|);
        assert false;
      }
    }
  }

  /**
   * The packer loses no feasible combination, whatever the orders, exactly on the machines whose
   * maximum is at least twice their minimum (or that accept nothing).
   */
  lemma CompleteExactlyWhen(lo: real, hi: real)
    ensures (forall ws :: Positive(ws) && Packable(ws, lo, hi) ==> Best(ws, lo, hi) != {})
            <==> lo > hi || 2.0 * lo <= hi
  {
    if lo > hi {
    } else if 2.0 * lo <= hi {
      forall ws | Positive(ws) && Packable(ws, lo, hi)
        ensures Best(ws, lo, hi) != {}
      {
        if k: nat :| k < |ws| && lo <= ws[k] <= hi {
          PackMaximal(ws, k, hi);
          assert Feasible(ws, lo, hi, k);
        } else {
          CompleteWithinSlack(ws, lo, hi);
        }
      }
    } else {
      var x := (lo - hi / 2.0) / 2.0;
      BlockedPair(x, hi / 2.0, hi / 2.0, lo, hi);
    }
  }

  /** A narrow first order that keeps a feasible pair apart: each anchor takes it and then lacks room. */
  lemma BlockedPair(x: real, b: real, c: real, lo: real, hi: real)
    requires x > 0.0 && b > 0.0 && c > 0.0
    requires lo <= b + c <= hi < x + b + c
    requires x + b < lo && x + c < lo
    ensures Positive([x, b, c]) && Packable([x, b, c], lo, hi) && Best([x, b, c], lo, hi) == {}
  {
    var ws := [x, b, c];
    assert WidthOf(ws, {1, 2}, 3) == b + c by {
      assert WidthOf(ws, {1, 2}, 0) == 0.0;
      assert WidthOf(ws, {1, 2}, 1) == 0.0;
      assert WidthOf(ws, {1, 2}, 2) == b;
    }
    assert PackableAs(ws, lo, hi, {1, 2});
    forall a: nat | a < 3 && ws[a] <= hi
      ensures PackWidth(ws, a, hi) < lo
    {
      PackMaximal(ws, a, hi);
      var p := Pack(ws, a, hi);
      assert WidthOf(ws, p, 3) == WidthOf(ws, p, 2) + (if 2 in p then c else 0.0);
      assert WidthOf(ws, p, 2) == WidthOf(ws, p, 1) + (if 1 in p then b else 0.0);
      assert WidthOf(ws, p, 1) == WidthOf(ws, p, 0) + (if 0 in p then x else 0.0);
      if a != 0 {
        assert 0 in Scan(ws, a, hi, 0, ws[a]);
      }
    }
  }

  /** 400 and 550 fit a machine that takes 900 to 1000, yet with an order of 100 before them nothing is selected. */
  lemma FeasiblePairLost()
    ensures Packable([100.0, 400.0, 550.0], 900.0, 1000.0)
    ensures Best([100.0, 400.0, 550.0], 900.0, 1000.0) == {}
  {
    BlockedPair(100.0, 400.0, 550.0, 900.0, 1000.0);
  }
}
