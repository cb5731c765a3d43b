/** When a specification form is accepted, and what it becomes, label by label. */
module SpecificationForms {
  import opened Sequences
  import opened Specifications

  function Labels(dim: Dimension): seq<string> {
    match dim
    case Width => ["宽幅", "宽度", "幅宽", "width"]
    case Thickness => ["厚度", "厚", "thickness"]
  }

  /** The form gives the dimension once, under this label. */
  ghost predicate GivenUnder(specs: Specs, dim: Dimension, label0: string) {
    label0 in Labels(dim) && label0 in specs && forall l :: l in Labels(dim) && l in specs ==> l == label0
  }

  lemma LabelsDiffer(dim: Dimension)
    ensures NoDuplicates(Labels(dim)) && Labels(dim) == Aliases(dim)
  {
  }

  lemma {:induction false} NoValues(specs: Specs, aliases: seq<string>)
    ensures ValuesUnder(specs, aliases) == [] <==> forall l :: l in aliases ==> l !in specs
  {
    if aliases != [] {
      NoValues(specs, aliases[1..]);
      assert aliases == [aliases[0]] + aliases[1..];
    }
  }

  lemma {:induction false} OneValue(specs: Specs, aliases: seq<string>, k: string)
    requires NoDuplicates(aliases) && k in aliases && k in specs && forall l :: l in aliases && l in specs ==> l == k
    ensures ValuesUnder(specs, aliases) == [Strip(specs[k])]
  {
    assert aliases == [aliases[0]] + aliases[1..];
    if aliases[0] == k {
      NoValues(specs, aliases[1..]);
    } else {
      OneValue(specs, aliases[1..], k);
    }
  }

  lemma {:induction false} ValueHasLabel(specs: Specs, aliases: seq<string>) returns (k: string)
    requires NoDuplicates(aliases) && |ValuesUnder(specs, aliases)| == 1
    ensures k in aliases && k in specs && forall l :: l in aliases && l in specs ==> l == k
  {
    assert aliases == [aliases[0]] + aliases[1..];
    if aliases[0] in specs {
      k := aliases[0];
      NoValues(specs, aliases[1..]);
    } else {
      k := ValueHasLabel(specs, aliases[1..]);
    }
  }

  /** Each dimension must be given once, by a measure; otherwise the form is refused with the dimension at fault. */
  lemma CheckedExactlyWhen(specs: Specs, dim: Dimension)
    ensures Checked(specs, dim) == Err(NotUnique(dim)) <==> !exists k :: GivenUnder(specs, dim, k)
    ensures forall k :: GivenUnder(specs, dim, k) ==>
              Checked(specs, dim) == match Canonical(dim, Strip(specs[k])) case Some(c) => Ok(c) case None => Err(Invalid(dim))
  {
    LabelsDiffer(dim);
    forall k | GivenUnder(specs, dim, k)
      ensures ValuesUnder(specs, Aliases(dim)) == [Strip(specs[k])]
    {
      OneValue(specs, Aliases(dim), k);
    }
    if |ValuesUnder(specs, Aliases(dim))| == 1 {
      var k := ValueHasLabel(specs, Aliases(dim));
      assert GivenUnder(specs, dim, k);
    }
  }

  /** The form is refused exactly when a dimension is missing, given twice, or no measure; the width is looked at first. */
  lemma FormRefusedExactlyWhen(specs: Specs)
    ensures Standardised(specs).Err? <==> Checked(specs, Width).Err? || Checked(specs, Thickness).Err?
    ensures Checked(specs, Width).Err? ==> Standardised(specs) == Err(Checked(specs, Width).error)
    ensures Checked(specs, Width).Ok? && Checked(specs, Thickness).Err? ==> Standardised(specs) == Err(Checked(specs, Thickness).error)
  {
  }

  /** Two texts with a separator between them, if both say something. */
  function Linked(a: string, b: string): string {
    if a == "" then b else if b == "" then a else a + "；" + b
  }

  function Rewritten(name: string, given: string, canonical: string): string {
    if given == canonical then "" else name + "：" + given
  }

  /** What the form says apart from the dimensions and the note stays as it was. */
  ghost predicate OthersStay(specs: Specs, out: Specs, labels: seq<string>) {
    forall key :: key !in labels && key != "原始规格" ==> (key in out <==> key in specs) && (key in specs ==> key in out && out[key] == specs[key])
  }

  /** Of these labels the form has one left, with this text. */
  ghost predicate OnlyUnder(out: Specs, labels: seq<string>, name: string, text: string) {
    name in out && out[name] == text && forall l :: l in labels && l in out ==> l == name
  }

  lemma {:induction false} BaseIs(specs: Specs, w: string, t: string)
    ensures var base := Without(Without(specs, Width)[Name(Width) := w], Thickness)[Name(Thickness) := t];
            OthersStay(specs, base, Labels(Width) + Labels(Thickness))
  {
    LabelsDiffer(Width);
    LabelsDiffer(Thickness);
    NamesAreApart();
  }

  lemma {:induction false} NotedStays(specs: Specs, base: Specs, out: Specs, labels: seq<string>, earlier: string, originals: seq<string>)
    requires OthersStay(specs, base, labels) && out == WithNote(base, earlier, originals)
    ensures OthersStay(specs, out, labels)
  {
  }

  lemma {:induction false} TextsOf(specs: Specs, out: Specs, dim: Dimension, k: string)
    requires GivenUnder(specs, dim, k) && Checked(specs, dim).Ok? && OnlyEntry(out, dim, Checked(specs, dim).value)
    ensures Canonical(dim, Strip(specs[k])).Some?
    ensures OnlyUnder(out, Labels(dim), Name(dim), Canonical(dim, Strip(specs[k])).value)
  {
    LabelsDiffer(dim);
    CheckedExactlyWhen(specs, dim);
  }

  lemma {:induction false} FormSaysOnce(specs: Specs, out: Specs, dim: Dimension, name: string, k: string)
    requires Standardised(specs) == Ok(out) && GivenUnder(specs, dim, k)
    requires name == match dim case Width => "宽幅" case Thickness => "厚度"
    ensures Canonical(dim, Strip(specs[k])).Some?
    ensures OnlyUnder(out, Labels(dim), name, Canonical(dim, Strip(specs[k])).value)
  {
    StandardisedShape(specs);
    TextsOf(specs, out, dim, k);
  }

  lemma {:induction false} FormKeepsOthers(specs: Specs, out: Specs)
    requires Standardised(specs) == Ok(out)
    ensures OthersStay(specs, out, Labels(Width) + Labels(Thickness))
  {
    var w, t := Checked(specs, Width).value, Checked(specs, Thickness).value;
    var base := Without(Without(specs, Width)[Name(Width) := w], Thickness)[Name(Thickness) := t];
    BaseIs(specs, w, t);
    NotedStays(specs, base, out, Labels(Width) + Labels(Thickness), EarlierNote(specs), Remark(specs, Width) + Remark(specs, Thickness));
  }

  /** An accepted form has one canonical width and one canonical thickness, and all else that it had. */
  lemma {:induction false} FormOutcome(specs: Specs, out: Specs, kw: string, kt: string)
    requires Standardised(specs) == Ok(out) && GivenUnder(specs, Width, kw) && GivenUnder(specs, Thickness, kt)
    ensures Canonical(Width, Strip(specs[kw])).Some? && Canonical(Thickness, Strip(specs[kt])).Some?
    ensures OnlyUnder(out, Labels(Width), "宽幅", Canonical(Width, Strip(specs[kw])).value)
    ensures OnlyUnder(out, Labels(Thickness), "厚度", Canonical(Thickness, Strip(specs[kt])).value)
    ensures OthersStay(specs, out, Labels(Width) + Labels(Thickness))
  {
    FormSaysOnce(specs, out, Width, "宽幅", kw);
    FormSaysOnce(specs, out, Thickness, "厚度", kt);
    FormKeepsOthers(specs, out);
  }

  // ----- the note -----

  function NoteOf(specs: Specs): string { if "原始规格" in specs then specs["原始规格"] else "" }

  lemma {:induction false} JoinTwo(a: string, b: string)
    ensures Join([a, b]) == a + "；" + b
  {
    assert [a, b][1..] == [b];
  }

  lemma {:induction false} JoinThree(a: string, b: string, c: string)
    ensures Join([a, b, c]) == a + "；" + (b + "；" + c)
  {
    assert [a, b, c][1..] == [b, c];
    JoinTwo(b, c);
  }

  function Part(text: string): seq<string> { if text == "" then [] else [text] }

  lemma {:induction false} JoinedIs(earlier: string, a: string, b: string)
    ensures Join(Part(earlier) + (Part(a) + Part(b))) == Linked(earlier, Linked(a, b))
  {
    if earlier == "" {
      assert Part(earlier) + (Part(a) + Part(b)) == Part(a) + Part(b);
      if a != "" && b != "" {
        JoinTwo(a, b);
      }
    } else if a == "" || b == "" {
      if a != b {
        var c := if a == "" then b else a;
        assert Part(earlier) + (Part(a) + Part(b)) == [earlier, c];
        JoinTwo(earlier, c);
      }
    } else {
      assert Part(earlier) + (Part(a) + Part(b)) == [earlier, a, b];
      JoinThree(earlier, a, b);
    }
  }

  lemma {:induction false} RemarkIs(specs: Specs, dim: Dimension, name: string, k: string)
    requires GivenUnder(specs, dim, k) && Checked(specs, dim).Ok?
    requires name == match dim case Width => "宽幅" case Thickness => "厚度"
    ensures Canonical(dim, Strip(specs[k])).Some?
    ensures Remark(specs, dim) == Part(Rewritten(name, Strip(specs[k]), Canonical(dim, Strip(specs[k])).value))
  {
    LabelsDiffer(dim);
    CheckedExactlyWhen(specs, dim);
    OneValue(specs, Aliases(dim), k);
  }

  lemma {:induction false} NotedIs(base: Specs, earlier: string, a: string, b: string)
    requires "原始规格" in base ==> base["原始规格"] == earlier
    requires "原始规格" !in base ==> earlier == ""
    ensures NoteOf(WithNote(base, earlier, Part(a) + Part(b))) == Linked(earlier, Linked(a, b))
  {
    JoinedIs(earlier, a, b);
  }

  /** The note of an accepted form: what was noted before, then each text that was rewritten, under its name. */
  lemma {:induction false} FormNote(specs: Specs, out: Specs, kw: string, kt: string)
    requires Standardised(specs) == Ok(out) && GivenUnder(specs, Width, kw) && GivenUnder(specs, Thickness, kt)
    ensures "宽幅" in out && "厚度" in out
    ensures NoteOf(out) == Linked(NoteOf(specs), Linked(Rewritten("宽幅", Strip(specs[kw]), out["宽幅"]),
                                                      Rewritten("厚度", Strip(specs[kt]), out["厚度"])))
  {
    FormOutcome(specs, out, kw, kt);
    var w, t := Checked(specs, Width).value, Checked(specs, Thickness).value;
    var base := Without(Without(specs, Width)[Name(Width) := w], Thickness)[Name(Thickness) := t];
    RemarkIs(specs, Width, "宽幅", kw);
    RemarkIs(specs, Thickness, "厚度", kt);
    BaseNote(specs, w, t);
    NotedIs(base, NoteOf(specs), Rewritten("宽幅", Strip(specs[kw]), out["宽幅"]), Rewritten("厚度", Strip(specs[kt]), out["厚度"]));
  }

  lemma {:induction false} BaseNote(specs: Specs, w: string, t: string)
    ensures var base := Without(Without(specs, Width)[Name(Width) := w], Thickness)[Name(Thickness) := t];
            && ("原始规格" in base ==> base["原始规格"] == NoteOf(specs))
            && ("原始规格" !in base ==> NoteOf(specs) == "")
  {
    BaseIs(specs, w, t);
    NamesAreApart();
  }
}
