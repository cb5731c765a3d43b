/** What the canonical form of a width or thickness is, digit by digit, in terms of the texts people write. */
module Spellings {
  import opened Sequences
  import opened Records
  import opened Decimals
  import opened Specifications
  import opened ProductionRules

  // ----- the texts that are accepted -----

  /** Units that are ten of the target unit. */
  predicate IsTenfold(dim: Dimension, unit: string) {
    match dim
    case Width => unit in ["cm", "cM", "Cm", "CM"]
    case Thickness => unit in ["丝", "c", "C"]
  }

  /** Spellings of the target unit itself. */
  predicate IsSingle(dim: Dimension, unit: string) {
    match dim
    case Width => unit in ["mm", "mM", "Mm", "MM"]
    case Thickness => unit in ["μm", "μM", "Μm", "ΜM", "um", "uM", "Um", "UM"]
  }

  predicate AllZeros(s: string) { forall k :: 0 <= k < |s| ==> s[k] == '0' }

  /** A blank by its code point: the control characters among them, the space, and the spaces of typography. */
  predicate IsBlank(c: char) {
    var p := c as int;
    || 9 <= p <= 13 || 28 <= p <= 32 || p == 133 || p == 160 || p == 5760
    || 8192 <= p <= 8202 || p == 8232 || p == 8233 || p == 8239 || p == 8287 || p == 12288
  }

  predicate AllBlank(s: string) { forall k :: 0 <= k < |s| ==> IsBlank(s[k]) }

  lemma BlanksAreSpaces()
    ensures forall c :: IsBlank(c) <==> IsSpace(c)
  {
  }

  lemma {:induction false} LeadingBlanks(s: string)
    ensures AllBlank(s[..Span(IsSpace, s)])
  {
  }

  /** A fraction with its point, or nothing. */
  function Fraction(f: string): string { if f == "" then "" else "." + f }

  /** Digits w, perhaps a point and digits f, blanks and a unit of the dimension; some digit is not zero. */
  predicate IsMeasure(dim: Dimension, w: string, f: string, blanks: string, unit: string) {
    && w != "" && AllDigits(w) && AllDigits(f) && !AllZeros(w + f)
    && AllBlank(blanks) && (IsTenfold(dim, unit) || IsSingle(dim, unit))
  }

  function Written(w: string, f: string, blanks: string, unit: string): string { w + Fraction(f) + blanks + unit }

  // ----- the text that each of them becomes -----

  /** Digits without the zeros in front, but at least one digit. */
  function Whole(w: string): string
    requires w != ""
  {
    if |w| > 1 && w[0] == '0' then Whole(w[1..]) else w
  }

  /** Digits without the zeros at the end. */
  function Rest(f: string): string {
    if f != "" && f[|f| - 1] == '0' then Rest(f[..|f| - 1]) else f
  }

  function Tidy(w: string, f: string): string
    requires w != ""
  {
    Whole(w) + Fraction(Rest(f))
  }

  /** The number with its point one digit further right. */
  function TenTimesWritten(w: string, f: string): (r: (string, string))
    ensures w != "" ==> r.0 != ""
  {
    if f == "" then (w + "0", "") else (w + f[..1], f[1..])
  }

  function Expected(dim: Dimension, w: string, f: string, unit: string): string
    requires w != ""
  {
    var (a, b) := if IsTenfold(dim, unit) then TenTimesWritten(w, f) else (w, f);
    Tidy(a, b) + (if dim == Width then "mm" else "μm")
  }

  // ----- units -----

  lemma FactorOfUnit(dim: Dimension, unit: string)
    ensures Factor(dim, Lower(unit)) == if IsTenfold(dim, unit) then Some(10) else if IsSingle(dim, unit) then Some(1) else None
  {
    if |unit| == 1 {
      assert unit == [unit[0]] && Lower(unit) == [LowerChar(unit[0])];
    } else if |unit| == 2 {
      assert unit == [unit[0], unit[1]] && Lower(unit) == [LowerChar(unit[0]), LowerChar(unit[1])];
    }
  }

  lemma UnitsArePlain(dim: Dimension, unit: string)
    requires IsTenfold(dim, unit) || IsSingle(dim, unit)
    ensures PlainUnit(unit)
  {
  }

  // ----- digits -----

  lemma {:induction false} NumberPositive(s: string)
    requires AllDigits(s)
    ensures NumberOf(s) == 0 <==> AllZeros(s)
  {
    if s != "" {
      var n := |s| - 1;
      NumberPositive(s[..n]);
      assert AllZeros(s) <==> AllZeros(s[..n]) && s[n] == '0';
    }
  }

  lemma NumberOfZeroFirst(w: string)
    requires AllDigits(w) && |w| > 1 && w[0] == '0'
    ensures NumberOf(w) == NumberOf(w[1..])
  {
    assert w == ['0'] + w[1..];
    NumberOfAppend(['0'], w[1..]);
    assert NumberOf(['0']) == 0;
  }

  lemma {:induction false} NumberGrows(w: string)
    requires AllDigits(w) && w != "" && w[0] != '0'
    ensures NumberOf(w) > 0
  {
    NumberPositive(w);
  }

  /** Digits without zeros in front are what the number is written with. */
  lemma {:induction false} DigitsOfWhole(w: string)
    requires AllDigits(w) && w != ""
    ensures Digits(NumberOf(w)) == Whole(w)
    decreases |w|
  {
    var n := |w| - 1;
    if n == 0 {
      assert NumberOf(w) == DigitOf(w[0]);
    } else if w[0] == '0' {
      NumberOfZeroFirst(w);
      DigitsOfWhole(w[1..]);
    } else {
      DigitsOfWhole(w[..n]);
      NumberGrows(w[..n]);
      assert w == w[..n] + [w[n]];
    }
  }

  lemma {:induction false} DropAppended(w: string, f: string)
    requires AllDigits(w) && AllDigits(f)
    ensures AllDigits(w + f)
    ensures DropDigits(NumberOf(w + f), |f|) == NumberOf(w) && LastDigits(NumberOf(w + f), |f|) == f
  {
    if f == "" {
      assert w + f == w;
    } else {
      var n := |f| - 1;
      DropAppended(w, f[..n]);
      assert (w + f)[..|w + f| - 1] == w + f[..n] && (w + f)[|w + f| - 1] == f[n];
      assert f == f[..n] + [f[n]];
    }
  }

  /** The trimmed number is written tidily. */
  lemma {:induction false} PlainOfTrim(w: string, f: string)
    requires AllDigits(w) && AllDigits(f) && w != ""
    ensures AllDigits(w + f) && Plain(Trim(Decimal(NumberOf(w + f), |f|))) == Tidy(w, f)
    decreases |f|
  {
    PlainOfTrimmed(w, f);
    if f != "" {
      LastOfAppended(w, f);
      if f[|f| - 1] == '0' {
        PlainOfTrim(w, f[..|f| - 1]);
        TrimDrops(NumberOf(w + f), NumberOf(w + f[..|f| - 1]), |f|);
      } else {
        assert Trimmed(Decimal(NumberOf(w + f), |f|));
      }
    }
  }

  lemma {:induction false} TrimDrops(n: nat, m: nat, places: nat)
    requires places > 0 && n == 10 * m
    ensures Trim(Decimal(n, places)) == Trim(Decimal(m, places - 1))
  {
  }

  lemma {:induction false} PlainOfTrimmed(w: string, f: string)
    requires AllDigits(w) && AllDigits(f) && w != ""
    ensures AllDigits(w + f) && Plain(Decimal(NumberOf(w + f), |f|)) == Whole(w) + Fraction(f)
  {
    DropAppended(w, f);
    DigitsOfWhole(w);
  }

  lemma LastOfAppended(w: string, f: string)
    requires AllDigits(w) && AllDigits(f) && f != ""
    ensures AllDigits(w + f) && AllDigits(w + f[..|f| - 1])
    ensures NumberOf(w + f) == 10 * NumberOf(w + f[..|f| - 1]) + DigitOf(f[|f| - 1])
    ensures NumberOf(w + f) % 10 == 0 <==> f[|f| - 1] == '0'
  {
    assert (w + f)[..|w + f| - 1] == w + f[..|f| - 1];
  }

  // ----- reading -----

  lemma BlanksEndNumber(blanks: string, unit: string)
    requires AllBlank(blanks) && PlainUnit(unit)
    ensures EndsNumber(blanks + unit) && Span(IsSpace, blanks + unit) == |blanks|
    ensures (blanks + unit)[|blanks|..] == unit
  {
    SpanOfPrefix(IsSpace, blanks, unit);
  }

  lemma Regroup(a: string, b: string, c: string)
    ensures a + (b + c) == a + b + c
  {
  }

  lemma JoinSlices(a: string, s: string, n: nat)
    requires n <= |s|
    ensures a + s[..n] + s[n..] == a + s
  {
    assert s == s[..n] + s[n..];
    Regroup(a, s[..n], s[n..]);
  }

  lemma {:induction false} ReadWritten(w: string, f: string, blanks: string, unit: string)
    requires w != "" && AllDigits(w) && AllDigits(f) && AllBlank(blanks) && PlainUnit(unit)
    ensures AllDigits(w + f)
    ensures ParseMeasure(Written(w, f, blanks, unit)) == Some(Measure(Decimal(NumberOf(w + f), |f|), unit))
  {
    BlanksEndNumber(blanks, unit);
    SplitPlain(w, f, blanks + unit);
    Regroup(w + (if f == "" then "" else "." + f), blanks, unit);
    ReadSplit(Written(w, f, blanks, unit), w, f, blanks + unit);
  }

  lemma {:induction false} ReadSplit(s: string, w: string, f: string, rest: string)
    requires AllDigits(w) && AllDigits(f) && SplitNumber(s) == (w, f, rest)
    ensures var unit := rest[Span(IsSpace, rest)..];
            && AllDigits(w + f)
            && ParseMeasure(s) == if w == "" || !IsUnit(unit) then None else Some(Measure(Decimal(NumberOf(w + f), |f|), unit))
  {
    NumberOfAppend(w, f);
  }

  /** Multiplying by ten moves the point. */
  lemma TenTimesIs(w: string, f: string)
    requires AllDigits(w) && AllDigits(f)
    ensures var (a, b) := TenTimesWritten(w, f);
            && AllDigits(a) && AllDigits(b) && AllDigits(w + f) && AllDigits(a + b)
            && SameValue(Scale(Decimal(NumberOf(w + f), |f|), 10), Decimal(NumberOf(a + b), |b|))
  {
    if f == "" {
      assert w + f == w && (w + "0") + "" == w + "0";
      ZeroAppended(w);
    } else {
      JoinSlices(w, f, 1);
      PointMoved(NumberOf(w + f), |f|);
    }
  }

  lemma ZeroAppended(w: string)
    requires AllDigits(w)
    ensures AllDigits(w + "0") && NumberOf(w + "0") == 10 * NumberOf(w)
  {
    assert (w + "0")[..|w + "0"| - 1] == w;
  }

  lemma PointMoved(n: nat, places: nat)
    requires places > 0
    ensures SameValue(Scale(Decimal(n, places), 10), Decimal(n, places - 1))
  {
    TenTimes(n, Pow10(places - 1));
    TenTimesLeft(n, Pow10(places - 1));
  }

  lemma WrittenMeasures(dim: Dimension, w: string, f: string, blanks: string, unit: string)
    requires IsMeasure(dim, w, f, blanks, unit)
    ensures AllDigits(w + f)
    ensures Measured(dim, Written(w, f, blanks, unit))
            == Some(Scale(Decimal(NumberOf(w + f), |f|), if IsTenfold(dim, unit) then 10 else 1))
  {
    UnitsArePlain(dim, unit);
    ReadWritten(w, f, blanks, unit);
    FactorOfUnit(dim, unit);
    NumberPositive(w + f);
  }

  /** A measure in any spelling becomes its digits without needless zeros, the point moved by its unit, and the target unit. */
  lemma CanonicalOfWritten(dim: Dimension, w: string, f: string, blanks: string, unit: string)
    requires IsMeasure(dim, w, f, blanks, unit)
    ensures Canonical(dim, Written(w, f, blanks, unit)) == Some(Expected(dim, w, f, unit))
  {
    var s := Written(w, f, blanks, unit);
    WrittenMeasures(dim, w, f, blanks, unit);
    if IsTenfold(dim, unit) {
      TenTimesIs(w, f);
      var (a, b) := TenTimesWritten(w, f);
      CanonicalOfValue(dim, s, Scale(Decimal(NumberOf(w + f), |f|), 10), a, b);
    } else {
      CanonicalOfValue(dim, s, Decimal(NumberOf(w + f), |f|), w, f);
    }
  }

  lemma {:induction false} CanonicalOfValue(dim: Dimension, s: string, d: Decimal, a: string, b: string)
    requires a != "" && AllDigits(a) && AllDigits(b) && AllDigits(a + b)
    requires Measured(dim, s) == Some(d) && SameValue(d, Decimal(NumberOf(a + b), |b|))
    ensures Canonical(dim, s) == Some(Tidy(a, b) + (if dim == Width then "mm" else "μm"))
  {
    CanonicalSpells(dim, s);
    TrimDecidesValue(d, Decimal(NumberOf(a + b), |b|));
    PlainOfTrim(a, b);
  }

  // ----- and nothing else -----

  lemma {:induction false} SplitIsWritten(s: string, w: string, f: string, rest: string)
    requires SplitNumber(s) == (w, f, rest)
    ensures w + Fraction(f) + rest == s
  {
    var n := Span(IsDigit, s);
    if f == "" {
      NoFraction(s, n);
    } else {
      JoinPoint(s, n, Span(IsDigit, s[n + 1..]));
    }
  }

  lemma NoFraction(s: string, n: nat)
    requires n <= |s|
    ensures s[..n] + Fraction("") + s[n..] == s
  {
    assert s[..n] + "" == s[..n];
  }

  lemma JoinPoint(s: string, n: nat, k: nat)
    requires n < |s| && s[n] == '.' && 0 < k <= |s[n + 1..]|
    ensures s[..n] + Fraction(s[n + 1..][..k]) + s[n + 1..][k..] == s
  {
    var tail := s[n + 1..];
    assert s == s[..n] + "." + tail;
    JoinSlices(s[..n] + ".", tail, k);
    Regroup(s[..n], ".", tail[..k]);
  }

  /** What is accepted can be taken apart. */
  lemma {:induction false} TakenApart(dim: Dimension, s: string, w: string, f: string, rest: string, n: nat)
    requires SplitNumber(s) == (w, f, rest) && n == Span(IsSpace, rest) && Canonical(dim, s).Some?
    ensures IsMeasure(dim, w, f, rest[..n], rest[n..]) && s == Written(w, f, rest[..n], rest[n..])
  {
    SplitIsWritten(s, w, f, rest);
    ReadSplit(s, w, f, rest);
    JoinSlices(w + Fraction(f), rest, n);
    LeadingBlanks(rest);
    if w == "" || !IsUnit(rest[n..]) {
      assert false;
    }
    AcceptedParts(dim, s, Measure(Decimal(NumberOf(w + f), |f|), rest[n..]));
    NumberPositive(w + f);
  }

  lemma {:induction false} AcceptedParts(dim: Dimension, s: string, m: Measure)
    requires ParseMeasure(s) == Some(m) && Canonical(dim, s).Some?
    ensures m.number.units > 0 && (IsTenfold(dim, m.unit) || IsSingle(dim, m.unit))
  {
    FactorOfUnit(dim, m.unit);
  }

  /** Exactly the measures are accepted. */
  lemma AcceptedIsWritten(dim: Dimension, s: string)
    ensures Canonical(dim, s).Some?
            <==> exists w, f, blanks, unit :: IsMeasure(dim, w, f, blanks, unit) && s == Written(w, f, blanks, unit)
  {
    if Canonical(dim, s).Some? {
      var (w, f, rest) := SplitNumber(s);
      TakenApart(dim, s, w, f, rest, Span(IsSpace, rest));
    }
    forall w, f, blanks, unit | IsMeasure(dim, w, f, blanks, unit) && s == Written(w, f, blanks, unit)
      ensures Canonical(dim, s).Some?
    {
      CanonicalOfWritten(dim, w, f, blanks, unit);
    }
  }

  // ----- equal measures -----

  /** Without a fraction and blanks. */
  lemma CanonicalOfWhole(dim: Dimension, w: string, unit: string)
    requires IsMeasure(dim, w, "", "", unit)
    ensures Canonical(dim, w + unit) == Some(Expected(dim, w, "", unit))
  {
    assert Written(w, "", "", unit) == w + unit;
    CanonicalOfWritten(dim, w, "", "", unit);
  }

  lemma {:induction false} ExpectedTenfold(dim: Dimension, w: string, ten: string, one: string)
    requires w != "" && IsTenfold(dim, ten) && IsSingle(dim, one)
    ensures Expected(dim, w, "", ten) == Expected(dim, w + "0", "", one)
  {
    NotBoth(dim, one);
  }

  lemma {:induction false} BothMeasure(dim: Dimension, w: string, ten: string, one: string)
    requires w != "" && AllDigits(w) && !AllZeros(w) && IsTenfold(dim, ten) && IsSingle(dim, one)
    ensures IsMeasure(dim, w, "", "", ten) && IsMeasure(dim, w + "0", "", "", one)
  {
    MoreDigits(w, "");
    MoreDigits(w, "0");
    MoreDigits(w + "0", "");
  }

  /** Every spelling of a tenfold unit means ten of the target unit. */
  lemma TenfoldUnits(dim: Dimension, w: string, ten: string, one: string)
    requires w != "" && AllDigits(w) && !AllZeros(w) && IsTenfold(dim, ten) && IsSingle(dim, one)
    ensures Canonical(dim, w + ten).Some? && Canonical(dim, w + ten) == Canonical(dim, (w + "0") + one)
  {
    BothMeasure(dim, w, ten, one);
    CanonicalOfWhole(dim, w, ten);
    CanonicalOfWhole(dim, w + "0", one);
    ExpectedTenfold(dim, w, ten, one);
  }

  lemma MoreDigits(w: string, more: string)
    requires w != "" && AllDigits(w) && !AllZeros(w) && AllDigits(more)
    ensures AllDigits(w + more) && !AllZeros(w + more)
  {
    var k :| 0 <= k < |w| && w[k] != '0';
    assert (w + more)[k] == w[k];
  }

  lemma NotBoth(dim: Dimension, unit: string)
    ensures !(IsTenfold(dim, unit) && IsSingle(dim, unit))
  {
    FactorOfUnit(dim, unit);
  }

  lemma CommonUnits()
    ensures IsTenfold(Thickness, "丝") && IsTenfold(Thickness, "c") && IsTenfold(Width, "cm")
    ensures IsSingle(Thickness, "μm") && IsSingle(Thickness, "um") && IsSingle(Width, "mm")
    ensures "0" + "μm" == "0μm" && "0" + "um" == "0um" && "0" + "mm" == "0mm"
  {
  }

  lemma TenfoldIs(dim: Dimension, w: string, ten: string, one: string, tenths: string)
    requires w != "" && AllDigits(w) && !AllZeros(w) && IsTenfold(dim, ten) && IsSingle(dim, one) && "0" + one == tenths
    ensures Canonical(dim, w + ten).Some? && Canonical(dim, w + ten) == Canonical(dim, w + tenths)
  {
    TenfoldUnits(dim, w, ten, one);
    Regroup(w, "0", one);
  }

  /** A digit string in 丝 or c, and the same with a zero behind it in um or μm, are one thickness; likewise cm and mm. */
  lemma TenMicronsAreOne(w: string)
    requires w != "" && AllDigits(w) && !AllZeros(w)
    ensures Canonical(Thickness, w + "丝") == Canonical(Thickness, w + "0μm")
    ensures Canonical(Thickness, w + "c") == Canonical(Thickness, w + "0μm")
    ensures Canonical(Thickness, w + "0um") == Canonical(Thickness, w + "0μm")
    ensures Canonical(Width, w + "cm") == Canonical(Width, w + "0mm")
  {
    CommonUnits();
    TenfoldIs(Thickness, w, "丝", "μm", "0μm");
    TenfoldIs(Thickness, w, "c", "μm", "0μm");
    TenfoldIs(Thickness, w, "c", "um", "0um");
    TenfoldIs(Width, w, "cm", "mm", "0mm");
  }

  /** A number in the target unit that has no zero in front is left as it is. */
  lemma TidyStays(w: string)
    requires w != "" && AllDigits(w) && w[0] != '0'
    ensures Canonical(Width, w + "mm") == Some(w + "mm") && Canonical(Thickness, w + "μm") == Some(w + "μm")
  {
    CommonUnits();
    TidyIn(Width, w, "mm");
    TidyIn(Thickness, w, "μm");
  }

  lemma TidyIn(dim: Dimension, w: string, one: string)
    requires w != "" && AllDigits(w) && w[0] != '0' && IsSingle(dim, one)
    ensures Canonical(dim, w + one) == Some(w + (if dim == Width then "mm" else "μm"))
  {
    NumberGrows(w);
    NumberPositive(w);
    assert w + "" == w;
    CanonicalOfWhole(dim, w, one);
    NotBoth(dim, one);
    assert Tidy(w, "") == w;
  }

  // ----- blanks around a text -----

  lemma {:induction false} StripEndBlank(s: string, post: string)
    requires s != "" && !IsSpace(s[|s| - 1]) && AllBlank(post)
    ensures StripEnd(s + post) == s
  {
    if post == "" {
      assert s + post == s;
    } else {
      var n := |post| - 1;
      StripEndBlank(s, post[..n]);
      assert (s + post)[..|s + post| - 1] == s + post[..n];
    }
  }

  /** Stripping removes the blanks around a text, and nothing else. */
  lemma StripIs(pre: string, s: string, post: string)
    requires AllBlank(pre) && AllBlank(post)
    requires s != "" && !IsSpace(s[0]) && !IsSpace(s[|s| - 1])
    ensures Strip(pre + s + post) == s
  {
    assert pre + s + post == pre + (s + post);
    SpanOfPrefix(IsSpace, pre, s + post);
    assert (pre + (s + post))[|pre|..] == s + post;
    StripEndBlank(s, post);
  }

  lemma WrittenIsBare(dim: Dimension, w: string, f: string, blanks: string, unit: string)
    requires IsMeasure(dim, w, f, blanks, unit)
    ensures var s := Written(w, f, blanks, unit); s != "" && !IsSpace(s[0]) && !IsSpace(s[|s| - 1])
  {
    UnitsArePlain(dim, unit);
    var s := Written(w, f, blanks, unit);
    assert s[0] == w[0] && s[|s| - 1] == unit[|unit| - 1];
  }

  // ----- thicknesses of a batch -----

  /** What a batch compares: for a measured thickness its tidy form in μm, for any other text the text itself. */
  lemma ThicknessOfWritten(pre: string, w: string, f: string, blanks: string, unit: string, post: string)
    requires IsMeasure(Thickness, w, f, blanks, unit) && AllBlank(pre) && AllBlank(post)
    ensures NormalThickness(pre + Written(w, f, blanks, unit) + post) == Expected(Thickness, w, f, unit)
  {
    WrittenIsBare(Thickness, w, f, blanks, unit);
    StripIs(pre, Written(w, f, blanks, unit), post);
    CanonicalOfWritten(Thickness, w, f, blanks, unit);
  }

  lemma OtherTextIsKept(raw: string)
    requires forall w, f, blanks, unit :: IsMeasure(Thickness, w, f, blanks, unit) ==> Strip(raw) != Written(w, f, blanks, unit)
    ensures NormalThickness(raw) == raw
  {
    AcceptedIsWritten(Thickness, Strip(raw));
  }

  lemma BareThickness(w: string, unit: string, s: string, e: string)
    requires IsMeasure(Thickness, w, "", "", unit) && s == w + unit && e == Expected(Thickness, w, "", unit)
    ensures NormalThickness(s) == e
  {
    assert "" + Written(w, "", "", unit) + "" == s;
    ThicknessOfWritten("", w, "", "", unit, "");
  }

  lemma ThicknessTenfold(w: string, ten: string, one: string, a: string, b: string)
    requires w != "" && AllDigits(w) && !AllZeros(w) && IsTenfold(Thickness, ten) && IsSingle(Thickness, one)
    requires a == w + ten && b == (w + "0") + one
    ensures NormalThickness(a) == NormalThickness(b)
  {
    var e := Expected(Thickness, w, "", ten);
    BothMeasure(Thickness, w, ten, one);
    ExpectedTenfold(Thickness, w, ten, one);
    BareThickness(w, ten, a, e);
    BareThickness(w + "0", one, b, e);
  }

  /** Orders alike but for a thickness of w 丝 and of w0 μm may run together. */
  lemma TenMicronsMerge(w: string, a: Content, b: Content)
    requires w != "" && AllDigits(w) && !AllZeros(w)
    requires a.thickness == w + "丝" && b == a.(thickness := w + "0μm")
    ensures NormalThickness(a.thickness) == NormalThickness(b.thickness) && SameProduct(a, b)
  {
    CommonUnits();
    assert w + "0μm" == (w + "0") + "μm";
    ThicknessTenfold(w, "丝", "μm", a.thickness, b.thickness);
  }
}
