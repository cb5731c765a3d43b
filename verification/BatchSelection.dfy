/** The loops that select a batch for one machine (planner.py, _select_batch), proved to find the best pack. */
module BatchSelection {
  import opened Sequences
  import opened Records
  import opened ProductionRules
  import opened MachineStates
  import opened Packer
  import opened Planner

  // ----- selecting a batch for one machine -----

  /** Where the scan stands after the anchor and i - 1 other orders. */
  function ScanPosition(a: nat, i: nat): nat
    requires i > 0
  {
    if i - 1 <= a then i - 1 else i
  }

  /** The i-th order of the scan is taken exactly when it fits. */
  lemma ScanAdvances(ws: seq<real>, a: nat, hi: real, i: nat, total: real)
    requires 0 < i < |ws| && a < |ws|
    ensures var k := ScanOrder(a, i);
            Scan(ws, a, hi, ScanPosition(a, i), total)
            == if total + ws[k] <= hi then {k} + Scan(ws, a, hi, ScanPosition(a, i + 1), total + ws[k])
               else Scan(ws, a, hi, ScanPosition(a, i + 1), total)
  {
    if i - 1 == a {
      assert Scan(ws, a, hi, a, total) == Scan(ws, a, hi, a + 1, total);
    }
    if i == a {
      var k := i - 1;
      assert Scan(ws, a, hi, a, total + ws[k]) == Scan(ws, a, hi, a + 1, total + ws[k]);
    }
  }

  /** The ids selected are those of the positions picked. */
  ghost predicate Matches(ps: seq<Profile>, selected: set<Id>, picked: set<nat>) {
    forall k :: 0 <= k < |ps| ==> (ps[k].order.id in selected <==> k in picked)
  }

  lemma MatchesAdd(ps: seq<Profile>, selected: set<Id>, picked: set<nat>, k: nat)
    requires DistinctOrders(ps) && k < |ps| && Matches(ps, selected, picked)
    ensures Matches(ps, selected + {ps[k].order.id}, picked + {k})
  {
  }

  /** After i orders of the scan, picked is the start of the pack and total its width. */
  ghost predicate Scanned(ws: seq<real>, a: nat, hi: real, i: nat, picked: set<nat>, total: real)
    requires a < |ws| && i <= |ws|
  {
    && WidthOf(ws, picked, |ws|) == total
    && if i == 0 then picked == {}
       else
         && a in picked && (forall j :: j in picked ==> j < ScanPosition(a, i) || j == a)
         && Pack(ws, a, hi) == picked + Scan(ws, a, hi, ScanPosition(a, i), total)
  }

  /** The position of the i-th order of the scan: the anchor first, then the others in order. */
  function ScanOrder(a: nat, i: nat): nat {
    if i == 0 then a else if i - 1 < a then i - 1 else i
  }

  lemma ScanStep(ws: seq<real>, a: nat, hi: real, i: nat, picked: set<nat>, total: real)
    requires a < |ws| && i < |ws| && ws[a] <= hi && Scanned(ws, a, hi, i, picked, total)
    ensures var k := ScanOrder(a, i);
            if total + ws[k] <= hi then k !in picked && Scanned(ws, a, hi, i + 1, picked + {k}, total + ws[k])
            else Scanned(ws, a, hi, i + 1, picked, total)
  {
    var k := ScanOrder(a, i);
    if i == 0 {
      WidthOfEmpty(ws, |ws|);
      WidthOfAdd(ws, {}, a, |ws|);
      assert picked + {a} == {a};
    } else {
      ScanAdvances(ws, a, hi, i, total);
      if total + ws[k] <= hi {
        WidthOfAdd(ws, picked, k, |ws|);
        var rest := Scan(ws, a, hi, ScanPosition(a, i + 1), total + ws[k]);
        assert picked + ({k} + rest) == (picked + {k}) + rest;
      }
    }
  }

  /** The orders taken in the first i positions of the scan, and their width. */
  ghost function Taken(ws: seq<real>, a: nat, hi: real, i: nat): (set<nat>, real)
    requires a < |ws| && i <= |ws|
  {
    if i == 0 then ({}, 0.0)
    else
      var before, k := Taken(ws, a, hi, i - 1), ScanOrder(a, i - 1);
      if before.1 + ws[k] <= hi then (before.0 + {k}, before.1 + ws[k]) else before
  }

  lemma {:induction false} TakenIsScanned(ws: seq<real>, a: nat, hi: real, i: nat)
    requires a < |ws| && i <= |ws| && ws[a] <= hi
    ensures Scanned(ws, a, hi, i, Taken(ws, a, hi, i).0, Taken(ws, a, hi, i).1)
  {
    if i == 0 {
      ScanStarts(ws, a, hi);
    } else {
      TakenIsScanned(ws, a, hi, i - 1);
      ScanStep(ws, a, hi, i - 1, Taken(ws, a, hi, i - 1).0, Taken(ws, a, hi, i - 1).1);
    }
  }

  lemma TakenIsPacked(ws: seq<real>, a: nat, hi: real)
    requires a < |ws| && ws[a] <= hi
    ensures Taken(ws, a, hi, |ws|) == (Pack(ws, a, hi), PackWidth(ws, a, hi))
  {
    TakenIsScanned(ws, a, hi, |ws|);
    ScanDone(ws, a, hi, Taken(ws, a, hi, |ws|).0, Taken(ws, a, hi, |ws|).1);
  }

  /** Grow one batch from anchor a: the ids of its orders, and its width. */
  method AnchoredPack(remaining: seq<Profile>, a: nat, hi: real) returns (selected: set<Id>, total: real)
    requires DistinctOrders(remaining) && a < |remaining| && WidthValue(remaining[a]) <= hi
    ensures total == PackWidth(Widths(remaining), a, hi)
    ensures Matches(remaining, selected, Pack(Widths(remaining), a, hi))
  {
    ghost var ws := Widths(remaining);
    selected, total := {}, 0.0;
    for i := 0 to |remaining|
      invariant total == Taken(ws, a, hi, i).1
      invariant Matches(remaining, selected, Taken(ws, a, hi, i).0)
    {
      var k := ScanOrder(a, i);
      if total + WidthValue(remaining[k]) <= hi {
        MatchesAdd(remaining, selected, Taken(ws, a, hi, i).0, k);
        selected, total := selected + {remaining[k].order.id}, total + WidthValue(remaining[k]);
      }
    }
    TakenIsPacked(ws, a, hi);
  }

  lemma ScanStarts(ws: seq<real>, a: nat, hi: real)
    requires a < |ws|
    ensures Scanned(ws, a, hi, 0, {}, 0.0)
  {
    WidthOfEmpty(ws, |ws|);
  }

  lemma ScanDone(ws: seq<real>, a: nat, hi: real, picked: set<nat>, total: real)
    requires a < |ws| && Scanned(ws, a, hi, |ws|, picked, total)
    ensures Pack(ws, a, hi) == picked && PackWidth(ws, a, hi) == total
  {
    assert Scan(ws, a, hi, ScanPosition(a, |ws|), total) == {};
    assert picked + {} == picked;
  }

  /** The batch in the order of the remaining orders, and its index tuple. */
  method InOrder(remaining: seq<Profile>, selected: set<Id>, ghost s: set<nat>)
    returns (batch: seq<Profile>, indexes: seq<nat>)
    requires Matches(remaining, selected, s)
    ensures batch == Pick(remaining, s) && indexes == Indexes(s, |remaining|)
  {
    batch, indexes := [], [];
    for k := 0 to |remaining|
      invariant batch == Pick(remaining[..k], s) && indexes == Indexes(s, k)
    {
      assert remaining[..k + 1][..k] == remaining[..k];
      if remaining[k].order.id in selected {
        batch, indexes := batch + [remaining[k]], indexes + [k];
      }
    }
    assert remaining[..|remaining|] == remaining;
  }

  /** Among the anchors below n, best is feasible and no feasible one is better. */
  ghost predicate BestSoFar(ws: seq<real>, lo: real, hi: real, n: nat, best: nat) {
    && best < n && Feasible(ws, lo, hi, best)
    && forall b: nat :: b < n && Feasible(ws, lo, hi, b) ==> !Better(ws, hi, b, best)
  }

  lemma KeepBest(ws: seq<real>, lo: real, hi: real, n: nat, best: nat)
    requires n < |ws| && BestSoFar(ws, lo, hi, n, best)
    ensures BestSoFar(ws, lo, hi, n + 1, if Feasible(ws, lo, hi, n) && Better(ws, hi, n, best) then n else best)
  {
    BetterAsymmetric(ws, hi, n, n);
    if Feasible(ws, lo, hi, n) && Better(ws, hi, n, best) {
      BetterAsymmetric(ws, hi, n, best);
      forall b: nat | b < n && Feasible(ws, lo, hi, b)
        ensures !Better(ws, hi, b, n)
      {
        BetterTransitive(ws, hi, n, best, b);
      }
    }
  }

  lemma PositiveWidths(ps: seq<Profile>)
    requires Ready(ps)
    ensures Positive(Widths(ps))
  {
    forall k | 0 <= k < |ps|
      ensures Widths(ps)[k] > 0.0
    {
      assert ps[k] in ps;
    }
  }

  lemma NoneWider(remaining: seq<Profile>, m: Machine)
    requires Ready(remaining)
    ensures forall a: nat :: a < |remaining| && WidthValue(remaining[a]) <= m.maxWidth
                             && PackWidth(Widths(remaining), a, m.maxWidth) >= m.minWidth ==>
                               PackWidth(Widths(remaining), a, m.maxWidth) <= TotalWidth(Select(remaining, m))
  {
    var ws := Widths(remaining);
    PickWidth(remaining, Best(ws, m.minWidth, m.maxWidth));
    forall a: nat | a < |ws| && ws[a] <= m.maxWidth && PackWidth(ws, a, m.maxWidth) >= m.minWidth
      ensures PackWidth(ws, a, m.maxWidth) <= TotalWidth(Select(remaining, m))
    {
      BestIsWidest(ws, m.minWidth, m.maxWidth, a);
    }
  }

  method SelectBatch(remaining: seq<Profile>, m: Machine) returns (best: seq<Profile>, bestWidth: real)
    requires Ready(remaining)
    ensures best == Select(remaining, m)
    ensures bestWidth == TotalWidth(best)
    ensures forall a: nat :: a < |remaining| && WidthValue(remaining[a]) <= m.maxWidth
                             && PackWidth(Widths(remaining), a, m.maxWidth) >= m.minWidth ==>
                               PackWidth(Widths(remaining), a, m.maxWidth) <= bestWidth
  {
    ghost var ws := Widths(remaining);
    PositiveWidths(remaining);
    var bestIndexes: seq<nat> := [];
    best, bestWidth := [], 0.0;
    ghost var anchor: Option<nat> := None;
    for a := 0 to |remaining|
      invariant anchor.None? ==> best == [] && bestWidth == 0.0 && bestIndexes == []
      invariant anchor.None? ==> forall b: nat :: b < a ==> !Feasible(ws, m.minWidth, m.maxWidth, b)
      invariant anchor.Some? ==>
        && BestSoFar(ws, m.minWidth, m.maxWidth, a, anchor.value)
        && best == Pick(remaining, Pack(ws, anchor.value, m.maxWidth))
        && bestWidth == PackWidth(ws, anchor.value, m.maxWidth)
        && bestIndexes == Indexes(Pack(ws, anchor.value, m.maxWidth), |ws|)
    {
      if anchor.Some? {
        KeepBest(ws, m.minWidth, m.maxWidth, a, anchor.value);
      }
      if WidthValue(remaining[a]) <= m.maxWidth {
        var selected, total := AnchoredPack(remaining, a, m.maxWidth);
        PackMaximal(ws, a, m.maxWidth);
        if total >= m.minWidth {
          var batch, indexes := InOrder(remaining, selected, Pack(ws, a, m.maxWidth));
          assert Feasible(ws, m.minWidth, m.maxWidth, a);
          if total > bestWidth || (total == bestWidth && (bestIndexes == [] || LexLess(indexes, bestIndexes))) {
            if anchor.Some? {
              NonEmptyIndexes(Pack(ws, anchor.value, m.maxWidth), anchor.value, |ws|);
            } else {
              BetterAsymmetric(ws, m.maxWidth, a, a);
            }
            best, bestWidth, bestIndexes := batch, total, indexes;
            anchor := Some(a);
          }
        }
      }
    }
    if anchor.Some? {
      assert IsBest(ws, m.minWidth, m.maxWidth, anchor.value);
      BestUnique(ws, m.minWidth, m.maxWidth, anchor.value);
      PickWidth(remaining, Pack(ws, anchor.value, m.maxWidth));
    } else {
      assert forall b: nat :: !Feasible(ws, m.minWidth, m.maxWidth, b);
      PickNothing(remaining);
    }
    NoneWider(remaining, m);
  }

  lemma NonEmptyIndexes(s: set<nat>, k: nat, n: nat)
    requires k in s && k < n
    ensures Indexes(s, n) != []
  {
    assert k in Indexes(s, n);
  }
}
