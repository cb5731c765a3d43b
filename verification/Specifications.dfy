/** Widths and thicknesses with explicit units (order_specification.py): parsing, canonical spelling, validation. */
module Specifications {
  import opened Sequences
  import opened Decimals

  datatype Dimension = Width | Thickness

  datatype Measure = Measure(number: Decimal, unit: string)

  datatype SpecError = NotUnique(dim: Dimension) | Invalid(dim: Dimension)

  const NOTE_KEY := "原始规格"

  function Name(dim: Dimension): string {
    match dim
    case Width => "宽幅"
    case Thickness => "厚度"
  }

  function Aliases(dim: Dimension): seq<string> {
    match dim
    case Width => ["宽幅", "宽度", "幅宽", "width"]
    case Thickness => ["厚度", "厚", "thickness"]
  }

  function Target(dim: Dimension): string {
    match dim
    case Width => "mm"
    case Thickness => "μm"
  }

  /** The factor from a lower-case unit to the target unit. */
  function Factor(dim: Dimension, unit: string): (r: Option<nat>)
    ensures r.Some? ==> r.value > 0
  {
    match dim
    case Width =>
      if unit == "cm" then Some(10) else if unit == "mm" then Some(1) else None
    case Thickness =>
      if unit == "丝" || unit == "c" then Some(10)
      else if unit == "μm" || unit == "um" then Some(1)
      else None
  }

  function LowerChar(c: char): char {
    if 'A' <= c <= 'Z' then (c as int + 32) as char else if c == 'Μ' then 'μ' else c
  }

  function Lower(s: string): string {
    seq(|s|, i requires 0 <= i < |s| => LowerChar(s[i]))
  }

  predicate IsSpace(c: char) {
    || '\U{9}' <= c <= '\U{D}' || '\U{1C}' <= c <= ' ' || c == '\U{85}' || c == '\U{A0}' || c == '\U{1680}'
    || '\U{2000}' <= c <= '\U{200A}' || '\U{2028}' <= c <= '\U{2029}' || c == '\U{202F}' || c == '\U{205F}' || c == '\U{3000}'
  }

  /** The number of leading characters of s that satisfy p. */
  function Span(p: char -> bool, s: string): (n: nat)
    ensures n <= |s|
    ensures forall k :: 0 <= k < n ==> p(s[k])
    ensures n < |s| ==> !p(s[n])
  {
    if s == "" || !p(s[0]) then 0 else 1 + Span(p, s[1..])
  }

  function Strip(s: string): string {
    StripEnd(s[Span(IsSpace, s)..])
  }

  function StripEnd(s: string): string {
    if s != "" && IsSpace(s[|s| - 1]) then StripEnd(s[..|s| - 1]) else s
  }

  /** Leading digits, the digits after a point if any follow it, and the rest. */
  function SplitNumber(s: string): (r: (string, string, string))
    ensures AllDigits(r.0) && AllDigits(r.1)
  {
    var w := Span(IsDigit, s);
    if w < |s| && s[w] == '.' && Span(IsDigit, s[w + 1..]) > 0 then
      var tail := s[w + 1..];
      var f := Span(IsDigit, tail);
      (s[..w], tail[..f], tail[f..])
    else (s[..w], "", s[w..])
  }

  predicate IsUnit(unit: string) {
    unit != "" && forall k :: 0 <= k < |unit| ==> !IsSpace(unit[k])
  }

  /** A number, optional spaces, and a unit without spaces that fills the rest. */
  function ParseMeasure(s: string): Option<Measure> {
    var (whole, fraction, rest) := SplitNumber(s);
    var unit := rest[Span(IsSpace, rest)..];
    if whole == "" || !IsUnit(unit) then None
    else
      NumberOfAppend(whole, fraction);
      Some(Measure(Decimal(NumberOf(whole + fraction), |fraction|), unit))
  }

  /** The positive number that s states, in the dimension's target unit. */
  function Measured(dim: Dimension, s: string): Option<Decimal> {
    match ParseMeasure(s)
    case None => None
    case Some(m) =>
      match Factor(dim, Lower(m.unit))
      case None => None
      case Some(factor) =>
        if m.number.units == 0 then None
        else Some(Scale(m.number, factor))
  }

  function Canonical(dim: Dimension, s: string): Option<string> {
    match Measured(dim, s)
    case None => None
    case Some(d) => Some(Shorten(Plain(d)) + Target(dim))
  }

  // ----- reading back a spelling -----

  lemma SpanOfPrefix(p: char -> bool, a: string, b: string)
    requires forall k :: 0 <= k < |a| ==> p(a[k])
    requires b != "" ==> !p(b[0])
    ensures Span(p, a + b) == |a|
  {
    var n := Span(p, a + b);
    assert forall k :: 0 <= k < |a| ==> (a + b)[k] == a[k];
    assert b != "" ==> (a + b)[|a|] == b[0];
  }

  lemma {:induction false} NumberOfAppend(a: string, b: string)
    requires AllDigits(a) && AllDigits(b)
    ensures AllDigits(a + b) && NumberOf(a + b) == NumberOf(a) * Pow10(|b|) + NumberOf(b)
  {
    if b == "" {
      assert a + b == a;
    } else {
      var c := b[..|b| - 1];
      NumberOfAppend(a, c);
      assert (a + b)[..|a + b| - 1] == a + c;
      TenTimes(NumberOf(a), Pow10(|c|));
    }
  }

  /** Text that does not go on with the number. */
  predicate EndsNumber(rest: string) { rest != "" && !IsDigit(rest[0]) && rest[0] != '.' }

  predicate PlainUnit(unit: string) { IsUnit(unit) && EndsNumber(unit) }

  lemma SplitPlain(whole: string, last: string, rest: string)
    requires AllDigits(whole) && AllDigits(last) && EndsNumber(rest)
    ensures SplitNumber(whole + (if last == "" then "" else "." + last) + rest) == (whole, last, rest)
  {
    if last == "" {
      assert whole + "" + rest == whole + rest;
      SpanOfPrefix(IsDigit, whole, rest);
    } else {
      var tail := "." + last + rest;
      assert whole + ("." + last) + rest == whole + tail;
      SpanOfPrefix(IsDigit, whole, tail);
      assert (whole + tail)[|whole|] == '.';
      assert (whole + tail)[|whole| + 1..] == last + rest;
      SpanOfPrefix(IsDigit, last, rest);
    }
  }

  /** Parsing the plain spelling of a number followed by a unit gives back exactly that number and unit. */
  lemma ParsePlain(d: Decimal, unit: string)
    requires PlainUnit(unit)
    ensures ParseMeasure(Plain(d) + unit) == Some(Measure(d, unit))
  {
    var whole, last := Digits(DropDigits(d.units, d.places)), LastDigits(d.units, d.places);
    SplitPlain(whole, last, unit);
    SpanOfPrefix(IsSpace, "", unit);
    assert "" + unit == unit;
    NumberOfAppend(whole, last);
    SplitDigits(d.units, d.places);
  }

  /** A trimmed positive number, spelt in the target unit, measures as itself and is canonical. */
  lemma SpellingIsCanonical(dim: Dimension, t: Decimal)
    requires Trimmed(t) && t.units > 0
    ensures var c := Plain(t) + Target(dim); Measured(dim, c) == Some(t) && Canonical(dim, c) == Some(c)
  {
    TargetUnit(dim);
    ParsePlain(t, Target(dim));
    MeasuredInTarget(dim, Plain(t) + Target(dim), t);
    ShortenSpellsTrim(t);
  }

  lemma TrimPositive(d: Decimal)
    requires d.units > 0
    ensures Trim(d).units > 0
  {
    TrimKeepsValue(d);
    if Trim(d).units == 0 {
      CancelFactor(d.units, 0, Pow10(Trim(d).places));
    }
  }

  /** The canonical spelling states the measured value, and is its own canonical spelling. */
  lemma CanonicalRoundTrip(dim: Dimension, s: string)
    requires Measured(dim, s).Some?
    ensures var c := Canonical(dim, s).value;
            && Measured(dim, c).Some?
            && SameValue(Measured(dim, c).value, Measured(dim, s).value)
            && Canonical(dim, c) == Some(c)
  {
    var d := Measured(dim, s).value;
    MeasuredPositive(dim, s);
    TrimPositive(d);
    TrimKeepsValue(d);
    CanonicalSpells(dim, s);
    SpellingIsCanonical(dim, Trim(d));
  }

  lemma MeasuredPositive(dim: Dimension, s: string)
    requires Measured(dim, s).Some?
    ensures Measured(dim, s).value.units > 0
  {
  }

  lemma MeasuredInTarget(dim: Dimension, s: string, d: Decimal)
    requires ParseMeasure(s) == Some(Measure(d, Target(dim))) && d.units > 0
    ensures Measured(dim, s) == Some(d)
  {
    TargetUnit(dim);
  }

  lemma TargetUnit(dim: Dimension)
    ensures PlainUnit(Target(dim)) && Factor(dim, Lower(Target(dim))) == Some(1)
  {
    assert Lower("mm") == "mm";
    assert Lower("μm") == "μm";
  }

  lemma CanonicalSpells(dim: Dimension, s: string)
    requires Measured(dim, s).Some?
    ensures var t := Trim(Measured(dim, s).value);
            && Canonical(dim, s) == Some(Plain(t) + Target(dim))
            && ParseMeasure(Canonical(dim, s).value) == Some(Measure(t, Target(dim)))
  {
    ShortenSpellsTrim(Measured(dim, s).value);
    TargetUnit(dim);
    ParsePlain(Trim(Measured(dim, s).value), Target(dim));
  }

  /** Two measurements have the same canonical spelling exactly when they state equal values. */
  lemma CanonicalDecidesValue(dim: Dimension, a: string, b: string)
    requires Measured(dim, a).Some? && Measured(dim, b).Some?
    ensures Canonical(dim, a) == Canonical(dim, b)
            <==> SameValue(Measured(dim, a).value, Measured(dim, b).value)
  {
    CanonicalSpells(dim, a);
    CanonicalSpells(dim, b);
    TrimDecidesValue(Measured(dim, a).value, Measured(dim, b).value);
  }

  // ----- the specification form -----

  type Specs = map<string, string>

  /** The stripped values given under any of the aliases, in alias order. */
  function ValuesUnder(specs: Specs, aliases: seq<string>): (r: seq<string>)
    ensures |r| <= |aliases|
  {
    if aliases == [] then []
    else (if aliases[0] in specs then [Strip(specs[aliases[0]])] else []) + ValuesUnder(specs, aliases[1..])
  }

  function Checked(specs: Specs, dim: Dimension): Result<string, SpecError> {
    var values := ValuesUnder(specs, Aliases(dim));
    if |values| != 1 then Err(NotUnique(dim))
    else match Canonical(dim, values[0])
         case None => Err(Invalid(dim))
         case Some(c) => Ok(c)
  }

  function Without(specs: Specs, dim: Dimension): Specs {
    map k | k in specs && k !in Aliases(dim) :: specs[k]
  }

  /** The remark that keeps a value that was rewritten. */
  function Original(dim: Dimension, value: string, canonical: string): seq<string> {
    if value == canonical then [] else [Name(dim) + "：" + value]
  }

  function Given(specs: Specs, dim: Dimension): string
    requires Checked(specs, dim).Ok?
  {
    ValuesUnder(specs, Aliases(dim))[0]
  }

  function Remark(specs: Specs, dim: Dimension): seq<string>
    requires Checked(specs, dim).Ok?
  {
    Original(dim, Given(specs, dim), Checked(specs, dim).value)
  }

  function Join(parts: seq<string>): string {
    if parts == [] then "" else if |parts| == 1 then parts[0] else parts[0] + "；" + Join(parts[1..])
  }

  function WithNote(result: Specs, earlier: string, originals: seq<string>): Specs {
    if originals == [] then result
    else result[NOTE_KEY := Join((if earlier == "" then [] else [earlier]) + originals)]
  }

  function EarlierNote(specs: Specs): string {
    if NOTE_KEY in specs then specs[NOTE_KEY] else ""
  }

  /** What the form becomes: one canonical width, one canonical thickness, and a note of what was rewritten. */
  function Standardised(specs: Specs): Result<Specs, SpecError> {
    match Checked(specs, Width)
    case Err(e) => Err(e)
    case Ok(w) =>
      match Checked(specs, Thickness)
      case Err(e) => Err(e)
      case Ok(t) =>
        var base := Without(Without(specs, Width)[Name(Width) := w], Thickness)[Name(Thickness) := t];
        Ok(WithNote(base, EarlierNote(specs), Remark(specs, Width) + Remark(specs, Thickness)))
  }

  /** The stripped values the form gives for a dimension, collected alias by alias. */
  method CollectValues(specs: Specs, aliases: seq<string>) returns (values: seq<string>)
    ensures values == ValuesUnder(specs, aliases)
  {
    values := [];
    for j := 0 to |aliases|
      invariant values + ValuesUnder(specs, aliases[j..]) == ValuesUnder(specs, aliases)
    {
      assert aliases[j..][1..] == aliases[j + 1..];
      if aliases[j] in specs {
        values := values + [Strip(specs[aliases[j]])];
      }
    }
  }

  method PopAliases(specs: Specs, dim: Dimension) returns (result: Specs)
    ensures result == Without(specs, dim)
  {
    result := specs;
    var aliases := Aliases(dim);
    for j := 0 to |aliases|
      invariant result == map k | k in specs && k !in aliases[..j] :: specs[k]
    {
      result := result - {aliases[j]};
    }
    assert aliases[..|aliases|] == aliases;
  }

  /** The form after the first n dimensions. */
  ghost function After(specs: Specs, n: nat): Specs
    requires n <= 2
    requires n >= 1 ==> Checked(specs, Width).Ok?
    requires n == 2 ==> Checked(specs, Thickness).Ok?
  {
    if n == 0 then specs
    else if n == 1 then Without(specs, Width)[Name(Width) := Checked(specs, Width).value]
    else Without(After(specs, 1), Thickness)[Name(Thickness) := Checked(specs, Thickness).value]
  }

  ghost function Notes(specs: Specs, n: nat): seq<string>
    requires n <= 2
    requires n >= 1 ==> Checked(specs, Width).Ok?
    requires n == 2 ==> Checked(specs, Thickness).Ok?
  {
    if n == 0 then []
    else if n == 1 then Remark(specs, Width)
    else Notes(specs, 1) + Remark(specs, Thickness)
  }

  /** One pass of the loop: check a dimension, then replace its aliases by the canonical entry. */
  method StandardiseOne(specs: Specs, result: Specs, originals: seq<string>, dim: Dimension)
    returns (r: Result<(Specs, seq<string>), SpecError>)
    ensures match Checked(specs, dim)
            case Err(e) => r == Err(e)
            case Ok(c) => r == Ok((Without(result, dim)[Name(dim) := c], originals + Remark(specs, dim)))
  {
    var values := CollectValues(specs, Aliases(dim));
    if |values| != 1 {
      return Err(NotUnique(dim));
    }
    var canonical := Canonical(dim, values[0]);
    if canonical.None? {
      return Err(Invalid(dim));
    }
    var cleaned := PopAliases(result, dim);
    var notes := originals + Original(dim, values[0], canonical.value);
    r := Ok((cleaned[Name(dim) := canonical.value], notes));
  }

  method ValidateSpecification(specs: Specs) returns (r: Result<Specs, SpecError>)
    ensures r == Standardised(specs)
  {
    var result := specs;
    var originals: seq<string> := [];
    for i := 0 to 2
      invariant i >= 1 ==> Checked(specs, Width).Ok?
      invariant i == 2 ==> Checked(specs, Thickness).Ok?
      invariant result == After(specs, i)
      invariant originals == Notes(specs, i)
    {
      var step := StandardiseOne(specs, result, originals, if i == 0 then Width else Thickness);
      match step
      case Err(e) => return Err(e);
      case Ok(next) => result, originals := next.0, next.1;
    }
    r := Ok(WithNote(result, EarlierNote(specs), originals));
  }

  lemma {:induction false} StripEndNoSpaces(s: string)
    requires s != "" ==> !IsSpace(s[0]) && !IsSpace(s[|s| - 1])
    ensures Strip(s) == s
  {
    assert s[0..] == s;
  }

  /** Validating the validated form changes nothing, not even the note. */
  lemma StandardisedIsStable(specs: Specs)
    requires Standardised(specs).Ok?
    ensures Standardised(Standardised(specs).value) == Standardised(specs)
  {
    var out := Standardised(specs).value;
    var w, t := Checked(specs, Width).value, Checked(specs, Thickness).value;
    StandardisedShape(specs);
    CanonicalEntryStays(specs, out, Width);
    CanonicalEntryStays(specs, out, Thickness);
    RebuildsItself(out, w, t);
  }

  lemma StandardisedShape(specs: Specs)
    requires Standardised(specs).Ok?
    ensures Checked(specs, Width).Ok? && OnlyEntry(Standardised(specs).value, Width, Checked(specs, Width).value)
    ensures Checked(specs, Thickness).Ok?
    ensures OnlyEntry(Standardised(specs).value, Thickness, Checked(specs, Thickness).value)
  {
    NamesAreApart();
    var w, t := Checked(specs, Width).value, Checked(specs, Thickness).value;
    var base := Without(Without(specs, Width)[Name(Width) := w], Thickness)[Name(Thickness) := t];
    BaseShape(specs, w, t);
    assert Standardised(specs).value == WithNote(base, EarlierNote(specs), Remark(specs, Width) + Remark(specs, Thickness));
  }

  lemma BaseShape(specs: Specs, w: string, t: string)
    ensures var base := Without(Without(specs, Width)[Name(Width) := w], Thickness)[Name(Thickness) := t];
            OnlyEntry(base, Width, w) && OnlyEntry(base, Thickness, t)
  {
    NamesAreApart();
  }

  /** Among a dimension's aliases only its own name is in the form, with value c. */
  ghost predicate OnlyEntry(specs: Specs, dim: Dimension, c: string) {
    && Name(dim) in specs && specs[Name(dim)] == c
    && forall k :: k in Aliases(dim) && k in specs ==> k == Name(dim)
  }

  lemma NamesAreApart()
    ensures NOTE_KEY !in Aliases(Width) && NOTE_KEY !in Aliases(Thickness)
    ensures Name(Width) in Aliases(Width) && Name(Thickness) in Aliases(Thickness)
    ensures forall k :: k in Aliases(Width) ==> k !in Aliases(Thickness)
  {
    assert Name(Width) == Aliases(Width)[0] && Name(Thickness) == Aliases(Thickness)[0];
  }

  lemma RebuildsItself(out: Specs, w: string, t: string)
    requires OnlyEntry(out, Width, w) && OnlyEntry(out, Thickness, t)
    ensures Without(Without(out, Width)[Name(Width) := w], Thickness)[Name(Thickness) := t] == out
  {
    NamesAreApart();
  }

  lemma CanonicalEntryStays(specs: Specs, out: Specs, dim: Dimension)
    requires Checked(specs, dim).Ok? && OnlyEntry(out, dim, Checked(specs, dim).value)
    ensures Checked(out, dim) == Checked(specs, dim)
    ensures Remark(out, dim) == []
  {
    var c := Checked(specs, dim).value;
    CanonicalIsStable(specs, dim);
    OneAlias(out, dim, c);
  }

  lemma CanonicalIsStable(specs: Specs, dim: Dimension)
    requires Checked(specs, dim).Ok?
    ensures var c := Checked(specs, dim).value; Strip(c) == c && Canonical(dim, c) == Some(c)
  {
    CanonicalIsStripped(dim, ValuesUnder(specs, Aliases(dim))[0]);
  }

  lemma CanonicalIsStripped(dim: Dimension, s: string)
    requires Canonical(dim, s).Some?
    ensures var c := Canonical(dim, s).value; Strip(c) == c && Canonical(dim, c) == Some(c)
  {
    var d := Measured(dim, s).value;
    MeasuredPositive(dim, s);
    TrimPositive(d);
    TrimKeepsValue(d);
    CanonicalSpells(dim, s);
    SpellingIsCanonical(dim, Trim(d));
    SpellingIsStripped(dim, Trim(d));
  }

  lemma SpellingIsStripped(dim: Dimension, t: Decimal)
    ensures Strip(Plain(t) + Target(dim)) == Plain(t) + Target(dim)
  {
    TargetUnit(dim);
    var whole := Digits(DropDigits(t.units, t.places));
    assert Plain(t)[0] == whole[0];
    StripEndNoSpaces(Plain(t) + Target(dim));
  }

  lemma OneAlias(specs: Specs, dim: Dimension, c: string)
    requires OnlyEntry(specs, dim, c) && Strip(c) == c
    ensures ValuesUnder(specs, Aliases(dim)) == [c]
  {
    NamesAreApart();
    assert Name(dim) == Aliases(dim)[0] && Name(dim) !in Aliases(dim)[1..];
    OnlyFirst(specs, Aliases(dim));
  }

  lemma OnlyFirst(specs: Specs, aliases: seq<string>)
    requires aliases != [] && aliases[0] in specs && aliases[0] !in aliases[1..]
    requires forall k :: k in aliases && k in specs ==> k == aliases[0]
    ensures ValuesUnder(specs, aliases) == [Strip(specs[aliases[0]])]
  {
    assert forall k :: k in aliases[1..] ==> k in aliases;
    NoAlias(specs, aliases[1..]);
  }

  lemma {:induction false} NoAlias(specs: Specs, aliases: seq<string>)
    requires forall k :: k in aliases ==> k !in specs
    ensures ValuesUnder(specs, aliases) == []
  {
    if aliases != [] {
      NoAlias(specs, aliases[1..]);
    }
  }
}
