/** Decimal numerals: their digits, their exact values, and the shortest plain spelling of a value. */
module Decimals {
  import opened Sequences

  /** The number units / 10^places. */
  datatype Decimal = Decimal(units: nat, places: nat)

  function Pow10(n: nat): (p: nat)
    ensures p > 0
  {
    if n == 0 then 1 else 10 * Pow10(n - 1)
  }

  function Scale(d: Decimal, factor: nat): (r: Decimal)
    ensures d.units > 0 && factor > 0 ==> r.units > 0
  {
    Decimal(d.units * factor, d.places)
  }

  ghost predicate SameValue(a: Decimal, b: Decimal) {
    a.units * Pow10(b.places) == b.units * Pow10(a.places)
  }

  predicate IsDigit(c: char) { '0' <= c <= '9' }

  predicate AllDigits(s: string) { forall k :: 0 <= k < |s| ==> IsDigit(s[k]) }

  function DigitOf(c: char): (d: nat)
    requires IsDigit(c)
    ensures d < 10
  {
    c as int - '0' as int
  }

  function CharOf(d: nat): (c: char)
    requires d < 10
    ensures IsDigit(c) && DigitOf(c) == d
  {
    ('0' as int + d) as char
  }

  function NumberOf(s: string): nat
    requires AllDigits(s)
  {
    if s == "" then 0 else NumberOf(s[..|s| - 1]) * 10 + DigitOf(s[|s| - 1])
  }

  /** n in decimal, without leading zeros. */
  function Digits(n: nat): (s: string)
    ensures AllDigits(s) && s != "" && NumberOf(s) == n
  {
    if n < 10 then [CharOf(n)] else Digits(n / 10) + [CharOf(n % 10)]
  }

  /** The last f digits of n, padded with zeros. */
  function LastDigits(n: nat, f: nat): (s: string)
    ensures AllDigits(s) && |s| == f
  {
    if f == 0 then "" else LastDigits(n / 10, f - 1) + [CharOf(n % 10)]
  }

  /** n without its last f digits. */
  function DropDigits(n: nat, f: nat): nat {
    if f == 0 then n else DropDigits(n / 10, f - 1)
  }

  /** The plain (never exponential) spelling with exactly d.places digits after the point. */
  function Plain(d: Decimal): string {
    Digits(DropDigits(d.units, d.places)) + if d.places == 0 then "" else "." + LastDigits(d.units, d.places)
  }

  function StripRight(s: string, c: char): string {
    if s != "" && s[|s| - 1] == c then StripRight(s[..|s| - 1], c) else s
  }

  /** The spelling without trailing zeros after the point, and without a trailing point. */
  function Shorten(s: string): string {
    if '.' in s then StripRight(StripRight(s, '0'), '.') else s
  }

  /** The same number without trailing zeros after the point. */
  ghost function Trim(d: Decimal): Decimal
    decreases d.places
  {
    if d.places > 0 && d.units % 10 == 0 then Trim(Decimal(d.units / 10, d.places - 1)) else d
  }

  ghost predicate Trimmed(d: Decimal) { d.places > 0 ==> d.units % 10 != 0 }

  lemma TenTimes(w: nat, p: nat)
    ensures w * (10 * p) == 10 * (w * p)
  {
  }

  lemma TenTimesLeft(w: nat, p: nat)
    ensures (10 * w) * p == 10 * (w * p)
  {
  }

  lemma {:induction false} TrimKeepsValue(d: Decimal)
    ensures SameValue(Trim(d), d) && Trimmed(Trim(d))
    decreases d.places
  {
    if d.places > 0 && d.units % 10 == 0 {
      var e := Decimal(d.units / 10, d.places - 1);
      TrimKeepsValue(e);
      var t := Trim(e);
      TenTimes(t.units, Pow10(e.places));
      TenTimesLeft(e.units, Pow10(t.places));
    }
  }

  /** A value has one trimmed form. */
  lemma {:induction false} TrimmedUnique(a: Decimal, b: Decimal)
    requires Trimmed(a) && Trimmed(b) && SameValue(a, b)
    ensures a == b
  {
    if a.places < b.places {
      NotShorter(a, b);
    } else if b.places < a.places {
      NotShorter(b, a);
    } else {
      CancelFactor(a.units, b.units, Pow10(a.places));
    }
  }

  lemma {:induction false} NotShorter(a: Decimal, b: Decimal)
    requires a.places < b.places && SameValue(a, b)
    ensures b.units % 10 == 0
    decreases a.places
  {
    var x := a.units * Pow10(b.places - 1);
    assert a.units * Pow10(b.places) == 10 * x;
    if a.places > 0 {
      var y := b.units * Pow10(a.places - 1);
      assert b.units * Pow10(a.places) == 10 * y;
      NotShorter(Decimal(a.units, a.places - 1), Decimal(b.units, b.places - 1));
    }
  }

  lemma SwapFactors(x: nat, y: nat, z: nat)
    ensures (x * y) * z == (x * z) * y
  {
  }

  lemma CancelFactor(x: nat, y: nat, z: nat)
    requires z > 0 && x * z == y * z
    ensures x == y
  {
  }

  lemma SameValueTransitive(a: Decimal, b: Decimal, c: Decimal)
    requires SameValue(a, b) && SameValue(b, c)
    ensures SameValue(a, c)
  {
    var pa, pb, pc := Pow10(a.places), Pow10(b.places), Pow10(c.places);
    SwapFactors(a.units, pc, pb);
    SwapFactors(b.units, pa, pc);
    SwapFactors(c.units, pb, pa);
    CancelFactor(a.units * pc, c.units * pa, pb);
  }

  /** Two numbers trim to the same form exactly when they are equal. */
  lemma TrimDecidesValue(a: Decimal, b: Decimal)
    ensures Trim(a) == Trim(b) <==> SameValue(a, b)
  {
    TrimKeepsValue(a);
    TrimKeepsValue(b);
    if SameValue(a, b) {
      SameValueTransitive(Trim(a), a, b);
      SameValueTransitive(Trim(a), b, Trim(b));
      TrimmedUnique(Trim(a), Trim(b));
    }
    if Trim(a) == Trim(b) {
      SameValueTransitive(a, Trim(a), b);
    }
  }

  // ----- spelling -----

  /** The digits before and after the point together spell the number. */
  lemma {:induction false} SplitDigits(n: nat, f: nat)
    ensures n == DropDigits(n, f) * Pow10(f) + NumberOf(LastDigits(n, f))
  {
    if f == 0 {
      assert LastDigits(n, 0) == "";
    } else {
      SplitDigits(n / 10, f - 1);
      LastDigitsStep(n, f);
      TenTimes(DropDigits(n, f), Pow10(f - 1));
    }
  }

  lemma LastDigitsStep(n: nat, f: nat)
    requires f > 0
    ensures NumberOf(LastDigits(n, f)) == 10 * NumberOf(LastDigits(n / 10, f - 1)) + n % 10
  {
    var s := LastDigits(n, f);
    assert s[..|s| - 1] == LastDigits(n / 10, f - 1);
  }

  lemma {:induction false} NotADigit(s: string, c: char)
    requires AllDigits(s) && !IsDigit(c)
    ensures c !in s && StripRight(s, c) == s
  {
  }

  /** Shortening the spelling of a number spells its trimmed form. */
  lemma {:induction false} ShortenSpellsTrim(d: Decimal)
    ensures Shorten(Plain(d)) == Plain(Trim(d))
    decreases d.places
  {
    var whole := Digits(DropDigits(d.units, d.places));
    if d.places == 0 {
      NotADigit(whole, '.');
    } else {
      var s := Plain(d);
      var last := LastDigits(d.units, d.places);
      assert s == whole + "." + last;
      assert s[|whole|] == '.';
      assert s[|s| - 1] == CharOf(d.units % 10);
      if d.units % 10 == 0 {
        var e := Decimal(d.units / 10, d.places - 1);
        ShortenSpellsTrim(e);
        assert s[..|s| - 1] == whole + "." + LastDigits(e.units, e.places);
        assert StripRight(s, '0') == StripRight(s[..|s| - 1], '0');
        if e.places == 0 {
          assert s[..|s| - 1] == whole + ".";
          assert StripRight(whole + ".", '0') == whole + ".";
          assert (whole + ".")[..|whole|] == whole;
          NotADigit(whole, '.');
          assert Plain(e) == whole;
        } else {
          assert s[..|s| - 1] == Plain(e);
          assert Plain(e)[|whole|] == '.';
        }
      } else {
        assert DigitOf(s[|s| - 1]) != 0;
        assert StripRight(s, '0') == s;
      }
    }
  }
}
