/** Which choices an option declares under its main keyword, and which of them it marks
    as ignorable. */
module OptionKeys {
  import opened Text
  import opened Ppd
  import opened Options

  function RealNamer(mand: bool, deflt: int): int -> string
  {
    (i: int) => RealName(mand, deflt, i)
  }

  function DecimalNamer(): int -> string
  {
    (i: int) => IntToString(i)
  }

  /** A synthesised "None" choice, present when the parameter is optional. */
  function OptionalNone(d: ParamDesc): seq<string>
  {
    if d.isMandatory then [] else ["None"]
  }

  /** The option names an option declares under its main keyword, by parameter type. */
  function Keys(t: PpdType, d: ParamDesc): seq<string>
  {
    match d.bounds
    case ListBounds(cs, _) => OptionalNone(d) + OptNames(cs)
    case BoolBounds(b) =>
      OptionalNone(d) + (if d.isMandatory && SkipColor(t, d) then [BoolName(b)] else []) + ["False", "True"]
    case RealBounds(lo, hi, df) =>
      (if SkipColor(t, d) then [] else MapNames(RealSteps(lo, hi), RealNamer(d.isMandatory, df)))
      + (if !d.isMandatory || !PrintedDefault(t, d) then ["None"] else [])
    case DimBounds(lo, hi, _) =>
      OptionalNone(d) + (if SkipColor(t, d) then [] else MapNames(IntSteps(lo, hi), DecimalNamer()))
    case IntBounds(lo, hi, df) =>
      OptionalNone(d) + (if d.isMandatory && SkipColor(t, d) then [IntToString(df)] else [])
      + MapNames(IntSteps(lo, hi), DecimalNamer())
    case Opaque(_) => []
  }

  // ----- Keywords that differ from the main keyword -----

  lemma OtherKeywords(d: ParamDesc)
    ensures Kw(d) != "OpenUI" && Kw(d) != FineKw(d) && Kw(d) != "ParamCustomStp" + d.name && Kw(d) != "Translation"
  {
    assert "Translation"[0] == 'T';
    assert Kw(d)[0] == 'S';
    assert |FineKw(d)| != |Kw(d)|;
    assert ("ParamCustomStp" + d.name)[0] == 'P';
  }

  lemma {:induction false} ListDeclarations(po: Catalog, kw: string, masked: bool, deflt: string, cs: seq<StringOpt>)
    ensures Declarations(ListLines(po, kw, masked, deflt, cs), kw) == OptNames(cs)
    decreases |cs|
  {
    if |cs| > 0 {
      var ls := ListLines(po, kw, masked, deflt, cs);
      assert ls[1..] == ListLines(po, kw, masked, deflt, cs[1..]);
      ListDeclarations(po, kw, masked, deflt, cs[1..]);
    }
  }

  lemma HeaderDeclaresNothing(po: Catalog, d: ParamDesc)
    ensures Declarations(Header(po, d), Kw(d)) == []
  {
    OtherKeywords(d);
    DeclarationsNone(Header(po, d), Kw(d));
  }

  lemma DefaultLinesDeclare(po: Catalog, d: ParamDesc, v: string)
    ensures Declarations(DefaultLines(po, d, v), Kw(d)) == OptionalNone(d)
  {
    if !d.isMandatory {
      DeclarationsAppend(Defaults(Kw(d), "None"), [NoneChoice(po, Kw(d))], Kw(d));
      DeclarationsNone(Defaults(Kw(d), "None"), Kw(d));
    } else {
      DeclarationsNone(Defaults(Kw(d), v), Kw(d));
    }
  }

  lemma ListKeys(t: PpdType, po: Catalog, lname: string, d: ParamDesc)
    requires d.bounds.ListBounds?
    ensures Declarations(ListBody(t, po, lname, d), Kw(d)) == Keys(t, d)
  {
    var kw, cs := Kw(d), d.bounds.choices;
    ListHeadKeys(t, po, lname, d);
    ListDeclarations(po, kw, SkipColor(t, d), d.bounds.deflt, cs);
    CloseNothing(kw, kw);
    Declarations3(ListHead(t, po, lname, d), ListLines(po, kw, SkipColor(t, d), d.bounds.deflt, cs), [CloseUI(kw)], kw);
  }

  lemma ListHeadKeys(t: PpdType, po: Catalog, lname: string, d: ParamDesc)
    requires d.bounds.ListBounds?
    ensures Declarations(ListHead(t, po, lname, d), Kw(d)) == OptionalNone(d)
  {
    var kw, cs := Kw(d), d.bounds.choices;
    var hint := if SkipColor(t, d) then [] else [Hint("Stp" + lname, if |cs| > 3 then "dropdown" else "radiobuttons")];
    DeclarationsNone(hint + [Fields(d, 0, 0, 0)], kw);
    DefaultLinesDeclare(po, d, d.bounds.deflt);
    DeclarationsAppend(hint + [Fields(d, 0, 0, 0)], DefaultLines(po, d, d.bounds.deflt), kw);
  }

  lemma BoolHeadKeys(t: PpdType, po: Catalog, lname: string, d: ParamDesc)
    requires d.bounds.BoolBounds?
    ensures Declarations([Hint("Stp" + lname, "checkbox"), Fields(d, 0, 0, if d.bounds.bdeflt then 1000 else 0)]
      + DefaultLines(po, d, BoolName(d.bounds.bdeflt)), Kw(d)) == OptionalNone(d)
  {
    var a := [Hint("Stp" + lname, "checkbox"), Fields(d, 0, 0, if d.bounds.bdeflt then 1000 else 0)];
    DeclarationsNone(a, Kw(d));
    DefaultLinesDeclare(po, d, BoolName(d.bounds.bdeflt));
    DeclarationsAppend(a, DefaultLines(po, d, BoolName(d.bounds.bdeflt)), Kw(d));
  }

  lemma BothKeys(masked: bool, kw: string, no: string, yes: string)
    ensures Declarations([Choice(masked, kw, "False", no, NoCode), Choice(masked, kw, "True", yes, NoCode)], kw) == ["False", "True"]
  {
    var both := [Choice(masked, kw, "False", no, NoCode), Choice(masked, kw, "True", yes, NoCode)];
    DeclarationsAppend([both[0]], [both[1]], kw);
    assert both == [both[0]] + [both[1]];
  }

  lemma BoolKeys(t: PpdType, po: Catalog, lname: string, d: ParamDesc)
    requires d.bounds.BoolBounds?
    ensures Declarations(BoolBody(t, po, lname, d), Kw(d)) == Keys(t, d)
  {
    var b, kw, masked := d.bounds.bdeflt, Kw(d), SkipColor(t, d);
    var head := [Hint("Stp" + lname, "checkbox"), Fields(d, 0, 0, if b then 1000 else 0)] + DefaultLines(po, d, BoolName(b));
    var extra := if d.isMandatory && masked then [Choice(false, kw, BoolName(b), Tr(po, BoolText(b)), NoCode)] else [];
    var both := [Choice(masked, kw, "False", Tr(po, "No"), NoCode), Choice(masked, kw, "True", Tr(po, "Yes"), NoCode)];
    BoolHeadKeys(t, po, lname, d);
    BoolExtraKeys(t, po, d);
    BothKeys(masked, kw, Tr(po, "No"), Tr(po, "Yes"));
    CloseNothing(kw, kw);
    DeclarationsFront(head, extra, both, [CloseUI(kw)], kw);
  }

  lemma BoolExtraKeys(t: PpdType, po: Catalog, d: ParamDesc)
    requires d.bounds.BoolBounds?
    ensures var b := d.bounds.bdeflt;
      Declarations(if d.isMandatory && SkipColor(t, d) then [Choice(false, Kw(d), BoolName(b), Tr(po, BoolText(b)), NoCode)] else [], Kw(d))
      == if d.isMandatory && SkipColor(t, d) then [BoolName(b)] else []
  {
  }

  lemma FineHeadNothing(po: Catalog, lname: string, d: ParamDesc)
    ensures Declarations(FineHead(po, lname, d), Kw(d)) == []
  {
    OtherKeywords(d);
    DeclarationsNone(FineHead(po, lname, d), Kw(d));
  }

  lemma FineValuesNothing(d: ParamDesc)
    ensures Declarations(MapLines(FineSteps(), FineChoiceAt(FineKw(d))), Kw(d)) == []
  {
    OtherKeywords(d);
    FineChoicesNothing(FineSteps(), FineKw(d), Kw(d));
  }

  lemma FineChoicesNothing(vs: seq<int>, fkw: string, kw: string)
    requires fkw != kw
    ensures Declarations(MapLines(vs, FineChoiceAt(fkw)), kw) == []
  {
    DeclarationsNone(MapLines(vs, FineChoiceAt(fkw)), kw);
  }

  lemma CloseNothing(kw: string, other: string)
    ensures Declarations([CloseUI(other)], kw) == []
  {
    DeclarationsNone([CloseUI(other)], kw);
  }

  lemma FineDeclaresNothing(po: Catalog, lname: string, d: ParamDesc)
    ensures Declarations(FineBlock(po, lname, d), Kw(d)) == []
  {
    FineHeadNothing(po, lname, d);
    FineValuesNothing(d);
    CloseNothing(Kw(d), FineKw(d));
    Declarations3(FineHead(po, lname, d), MapLines(FineSteps(), FineChoiceAt(FineKw(d))), [CloseUI(FineKw(d))], Kw(d));
  }

  lemma RealHeadNothing(lname: string, d: ParamDesc)
    requires d.bounds.RealBounds?
    ensures Declarations(RealHead(lname, d), Kw(d)) == []
  {
    DeclarationsNone(RealHead(lname, d), Kw(d));
  }

  lemma RealValuesKeys(t: PpdType, d: ParamDesc)
    requires d.bounds.RealBounds?
    ensures Declarations(RealValues(t, d), Kw(d))
      == if SkipColor(t, d) then [] else MapNames(RealSteps(d.bounds.rlower, d.bounds.rupper), RealNamer(d.isMandatory, d.bounds.rdeflt))
  {
    if !SkipColor(t, d) {
      var kw, df := Kw(d), d.bounds.rdeflt;
      DeclarationsOfMap(RealSteps(d.bounds.rlower, d.bounds.rupper), RealChoiceAt(kw, d.isMandatory, df), RealNamer(d.isMandatory, df), kw);
    }
  }

  lemma RealTailNothing(po: Catalog, d: ParamDesc)
    requires d.bounds.RealBounds?
    ensures Declarations(RealTail(po, d), Kw(d)) == []
  {
    OtherKeywords(d);
    DeclarationsNone(RealTail(po, d), Kw(d));
  }

  lemma RealFineNothing(t: PpdType, po: Catalog, lname: string, d: ParamDesc)
    ensures Declarations(RealFine(t, po, lname, d), Kw(d)) == []
  {
    if t != Simplified && !SkipColor(t, d) {
      FineDeclaresNothing(po, lname, d);
    }
  }

  lemma RealKeys(t: PpdType, po: Catalog, lname: string, d: ParamDesc)
    requires d.bounds.RealBounds?
    ensures Declarations(RealBody(t, po, lname, d), Kw(d)) == Keys(t, d)
  {
    var kw := Kw(d);
    var head, vals, none, tail, fine := RealHead(lname, d), RealValues(t, d), RealNone(t, po, d), RealTail(po, d), RealFine(t, po, lname, d);
    RealHeadNothing(lname, d);
    RealValuesKeys(t, d);
    RealTailNothing(po, d);
    RealFineNothing(t, po, lname, d);
    RealNoneKeys(t, po, d);
    RealKeysForm(t, d);
    DeclarationsMiddle(head, vals, none, tail, fine, kw);
  }

  lemma RealKeysForm(t: PpdType, d: ParamDesc)
    requires d.bounds.RealBounds?
    ensures Keys(t, d)
      == (if SkipColor(t, d) then [] else MapNames(RealSteps(d.bounds.rlower, d.bounds.rupper), RealNamer(d.isMandatory, d.bounds.rdeflt)))
         + (if !d.isMandatory || !PrintedDefault(t, d) then ["None"] else [])
  {
  }

  lemma RealNoneKeys(t: PpdType, po: Catalog, d: ParamDesc)
    requires d.bounds.RealBounds?
    ensures Declarations(RealNone(t, po, d), Kw(d)) == if !d.isMandatory || !PrintedDefault(t, d) then ["None"] else []
  {
  }

  lemma DimHeadKeys(po: Catalog, lname: string, d: ParamDesc)
    requires d.bounds.DimBounds?
    ensures Declarations(DimHead(po, lname, d), Kw(d)) == OptionalNone(d)
  {
    var lo, hi, df := d.bounds.dlower, d.bounds.dupper, d.bounds.ddeflt;
    var a := [Hint("Stp" + lname, "length slider input spinbox"), Fields(d, lo * 1000, hi * 1000, df * 1000)];
    DeclarationsNone(a, Kw(d));
    DefaultLinesDeclare(po, d, IntToString(df));
    DeclarationsAppend(a, DefaultLines(po, d, IntToString(df)), Kw(d));
  }

  lemma DimValuesKeys(t: PpdType, po: Catalog, mm: (string, int) -> string, d: ParamDesc)
    requires d.bounds.DimBounds?
    ensures Declarations(DimValues(t, po, mm, d), Kw(d))
      == if SkipColor(t, d) then [] else MapNames(IntSteps(d.bounds.dlower, d.bounds.dupper), DecimalNamer())
  {
    if !SkipColor(t, d) {
      DeclarationsOfMap(IntSteps(d.bounds.dlower, d.bounds.dupper), DimChoiceAt(Kw(d), Tr(po, "%.1f mm"), mm), DecimalNamer(), Kw(d));
    }
  }

  lemma DimKeys(t: PpdType, po: Catalog, mm: (string, int) -> string, lname: string, d: ParamDesc)
    requires d.bounds.DimBounds?
    ensures Declarations(DimBody(t, po, mm, lname, d), Kw(d)) == Keys(t, d)
  {
    DimHeadKeys(po, lname, d);
    DimValuesKeys(t, po, mm, d);
    CloseNothing(Kw(d), Kw(d));
    Declarations3(DimHead(po, lname, d), DimValues(t, po, mm, d), [CloseUI(Kw(d))], Kw(d));
  }

  lemma IntHeadKeys(t: PpdType, po: Catalog, lname: string, d: ParamDesc)
    requires d.bounds.IntBounds?
    ensures Declarations(IntHead(t, po, lname, d), Kw(d))
      == OptionalNone(d) + (if d.isMandatory && SkipColor(t, d) then [IntToString(d.bounds.ideflt)] else [])
  {
    var kw := Kw(d);
    var lo, hi, df := d.bounds.ilower, d.bounds.iupper, d.bounds.ideflt;
    var a := [Hint("Stp" + lname, "input spinbox"), Fields(d, lo * 1000, hi * 1000, df * 1000)];
    var dl := DefaultLines(po, d, IntToString(df));
    var extra := if d.isMandatory && SkipColor(t, d) then [Choice(false, kw, IntToString(df), IntToString(df), NoCode)] else [];
    DeclarationsNone(a, kw);
    DefaultLinesDeclare(po, d, IntToString(df));
    Declarations3(a, dl, extra, kw);
  }

  lemma IntKeys(t: PpdType, po: Catalog, lname: string, d: ParamDesc)
    requires d.bounds.IntBounds?
    ensures Declarations(IntBody(t, po, lname, d), Kw(d)) == Keys(t, d)
  {
    var kw := Kw(d);
    var vals := MapLines(IntSteps(d.bounds.ilower, d.bounds.iupper), IntChoiceAt(kw, SkipColor(t, d)));
    IntHeadKeys(t, po, lname, d);
    DeclarationsOfMap(IntSteps(d.bounds.ilower, d.bounds.iupper), IntChoiceAt(kw, SkipColor(t, d)), DecimalNamer(), kw);
    CloseNothing(kw, kw);
    Declarations3(IntHead(t, po, lname, d), vals, [CloseUI(kw)], kw);
  }

  /** The options `print_one_option` declares under the parameter's keyword are `Keys`. */
  lemma OptionDeclarations(t: PpdType, po: Catalog, mm: (string, int) -> string, lname: string, d: ParamDesc)
    ensures Declarations(OptionLines(t, po, mm, lname, d), Kw(d)) == Keys(t, d)
  {
    HeaderDeclaresNothing(po, d);
    DeclarationsAppend(Header(po, d), TypedBody(t, po, mm, lname, d), Kw(d));
    match d.bounds {
      case ListBounds(_, _) => ListKeys(t, po, lname, d);
      case BoolBounds(_) => BoolKeys(t, po, lname, d);
      case RealBounds(_, _, _) => RealKeys(t, po, lname, d);
      case DimBounds(_, _, _) => DimKeys(t, po, mm, lname, d);
      case IntBounds(_, _, _) => IntKeys(t, po, lname, d);
      case Opaque(_) => DeclarationsNone([CloseUI(Kw(d))], Kw(d));
    }
  }

  // ----- The default is always among the declared choices -----

  /** The value of the "*DefaultStp..." line. */
  function DefaultChoice(d: ParamDesc): string
  {
    match d.bounds
    case ListBounds(_, deflt) => if d.isMandatory then deflt else "None"
    case BoolBounds(b) => if d.isMandatory then BoolName(b) else "None"
    case RealBounds(_, _, _) => "None"
    case DimBounds(_, _, df) => if d.isMandatory then IntToString(df) else "None"
    case IntBounds(_, _, df) => if d.isMandatory then IntToString(df) else "None"
    case Opaque(_) => ""
  }

  lemma NotNone(i: int)
    ensures IntToString(i) != "None"
  {
    IntToStringChars(i);
  }

  /** Among the values of a Double grid only the default of a mandatory parameter is named
      "None", and at most once. */
  lemma {:induction false} RealNamesNone(i: int, hi: int, mand: bool, df: int)
    ensures multiset(MapNames(Steps(i, hi, 100), RealNamer(mand, df)))["None"]
      == if mand && df in Steps(i, hi, 100) then 1 else 0
    decreases hi - i
  {
    if i <= hi {
      var rest := Steps(i + 100, hi, 100);
      assert Steps(i, hi, 100) == [i] + rest;
      assert MapNames(Steps(i, hi, 100), RealNamer(mand, df)) == [RealName(mand, df, i)] + MapNames(rest, RealNamer(mand, df));
      RealNamesNone(i + 100, hi, mand, df);
      StepsAbove(i + 100, hi, 100);
      NotNone(i);
    }
  }

  /** A Double option declares "None", its default, exactly once. */
  lemma RealNoneOnce(t: PpdType, d: ParamDesc)
    requires d.bounds.RealBounds?
    ensures multiset(Keys(t, d))["None"] == 1
  {
    var lo, hi, df := d.bounds.rlower, d.bounds.rupper, d.bounds.rdeflt;
    if !SkipColor(t, d) {
      RealNamesNone(lo, hi, d.isMandatory, df);
    }
  }

  /** Every integer of the range is visited by a step-1 loop. */
  lemma {:induction false} StepsCover(i: int, hi: int, v: int)
    requires i <= v <= hi
    ensures v in Steps(i, hi, 1)
    decreases hi - i
  {
    if v != i {
      StepsCover(i + 1, hi, v);
    }
  }

  /** The decimal name of `v` is among the names of a step-1 range exactly when `v` is in it. */
  lemma DecimalInRange(lo: int, hi: int, v: int)
    ensures IntToString(v) in MapNames(IntSteps(lo, hi), DecimalNamer()) <==> lo <= v <= hi
  {
    var vs := IntSteps(lo, hi);
    var ns := MapNames(vs, DecimalNamer());
    if lo <= v <= hi {
      StepsCover(lo, hi, v);
      var k :| 0 <= k < |vs| && vs[k] == v;
      assert ns[k] == IntToString(v);
    }
    if IntToString(v) in ns {
      var k :| 0 <= k < |ns| && ns[k] == IntToString(v);
      IntToStringInjective(vs[k], v);
      StepsAbove(lo, hi, 1);
      assert vs[k] in vs;
    }
  }

  /** The choice named on the "*Default" line is declared, for each type exactly when: */
  lemma DefaultDeclared(t: PpdType, d: ParamDesc)
    ensures d.bounds.ListBounds? ==> (DefaultChoice(d) in Keys(t, d) <==> !d.isMandatory || d.bounds.deflt in OptNames(d.bounds.choices))
    ensures d.bounds.BoolBounds? || d.bounds.RealBounds? ==> DefaultChoice(d) in Keys(t, d)
    ensures d.bounds.DimBounds? ==> (DefaultChoice(d) in Keys(t, d)
      <==> !d.isMandatory || (!SkipColor(t, d) && d.bounds.dlower <= d.bounds.ddeflt <= d.bounds.dupper))
    ensures d.bounds.IntBounds? ==> (DefaultChoice(d) in Keys(t, d)
      <==> !d.isMandatory || SkipColor(t, d) || d.bounds.ilower <= d.bounds.ideflt <= d.bounds.iupper)
  {
    if d.bounds.RealBounds? {
      RealNoneOnce(t, d);
      assert multiset(Keys(t, d))["None"] > 0;
    } else if d.bounds.DimBounds? {
      DimDefaultDeclared(t, d);
    } else if d.bounds.IntBounds? {
      IntDefaultDeclared(t, d);
    }
  }

  lemma DimDefaultDeclared(t: PpdType, d: ParamDesc)
    requires d.bounds.DimBounds?
    ensures DefaultChoice(d) in Keys(t, d)
      <==> !d.isMandatory || (!SkipColor(t, d) && d.bounds.dlower <= d.bounds.ddeflt <= d.bounds.dupper)
  {
    var lo, hi, df := d.bounds.dlower, d.bounds.dupper, d.bounds.ddeflt;
    DecimalInRange(lo, hi, df);
    NotNone(df);
    if d.isMandatory && !SkipColor(t, d) {
      assert Keys(t, d) == [] + MapNames(IntSteps(lo, hi), DecimalNamer());
    }
  }

  lemma IntDefaultDeclared(t: PpdType, d: ParamDesc)
    requires d.bounds.IntBounds?
    ensures DefaultChoice(d) in Keys(t, d)
      <==> !d.isMandatory || SkipColor(t, d) || d.bounds.ilower <= d.bounds.ideflt <= d.bounds.iupper
  {
    var lo, hi, df := d.bounds.ilower, d.bounds.iupper, d.bounds.ideflt;
    DecimalInRange(lo, hi, df);
    if d.isMandatory && !SkipColor(t, d) {
      assert Keys(t, d) == [] + [] + MapNames(IntSteps(lo, hi), DecimalNamer());
    }
  }

  // ----- Which choices the localization pass translates -----

  /** The option names `print_one_localization` translates under the parameter's keyword. */
  function TranslatedKeys(ln: bool, d: ParamDesc): seq<string>
  {
    match d.bounds
    case ListBounds(cs, _) => OptionalNone(d) + OptNames(cs)
    case BoolBounds(_) => OptionalNone(d) + ["False", "True"]
    case RealBounds(lo, hi, df) =>
      (if ln then MapNames(RealSteps(lo, hi), RealNamer(d.isMandatory, df)) else []) + OptionalNone(d)
    case DimBounds(lo, hi, _) => OptionalNone(d) + MapNames(IntSteps(lo, hi), DecimalNamer())
    case IntBounds(lo, hi, _) => OptionalNone(d) + (if ln then MapNames(IntSteps(lo, hi), DecimalNamer()) else [])
    case Opaque(_) => []
  }

  lemma LocNoneKeys(po: Catalog, lang: string, d: ParamDesc)
    ensures Translations(LocNone(po, lang, d), lang, Kw(d)) == OptionalNone(d)
  {
  }

  lemma {:induction false} LocChoicesKeys(po: Catalog, lang: string, kw: string, cs: seq<StringOpt>)
    ensures Translations(LocChoices(po, lang, kw, cs), lang, kw) == OptNames(cs)
    decreases |cs|
  {
    if |cs| > 0 {
      var ls := LocChoices(po, lang, kw, cs);
      assert ls[1..] == LocChoices(po, lang, kw, cs[1..]);
      LocChoicesKeys(po, lang, kw, cs[1..]);
    }
  }

  lemma LocBoolKeys(po: Catalog, lang: string, d: ParamDesc)
    ensures Translations(LocBoolBody(po, lang, d), lang, Kw(d)) == OptionalNone(d) + ["False", "True"]
  {
    var kw := Kw(d);
    var f, y := Localized(lang, kw, "False", Tr(po, "No")), Localized(lang, kw, "True", Tr(po, "Yes"));
    Translations3(LocNone(po, lang, d), [f], [y], lang, kw);
    assert LocBoolBody(po, lang, d) == LocNone(po, lang, d) + [f] + [y];
  }

  lemma LocRealValuesKeys(ln: bool, lang: string, d: ParamDesc)
    requires d.bounds.RealBounds?
    ensures Translations(LocRealValues(ln, lang, d), lang, Kw(d))
      == if ln then MapNames(RealSteps(d.bounds.rlower, d.bounds.rupper), RealNamer(d.isMandatory, d.bounds.rdeflt)) else []
  {
    if ln {
      var df := d.bounds.rdeflt;
      TranslationsOfMap(RealSteps(d.bounds.rlower, d.bounds.rupper), LocRealAt(lang, Kw(d), d.isMandatory, df), RealNamer(d.isMandatory, df), lang, Kw(d));
    }
  }

  lemma LocCustomNothing(po: Catalog, lang: string, d: ParamDesc)
    ensures Translations(LocCustom(po, lang, d), lang, Kw(d)) == []
  {
    OtherKeywords(d);
  }

  lemma LocFineNothing(t: PpdType, ln: bool, po: Catalog, lang: string, d: ParamDesc)
    ensures Translations(LocFine(t, ln, po, lang, d), lang, Kw(d)) == []
  {
    OtherKeywords(d);
    if t != Simplified {
      TranslationsNone(LocFineHead(po, lang, d), lang, Kw(d));
      TranslationsNone(LocFineValues(ln, lang, d), lang, Kw(d));
      TranslationsAppend(LocFineHead(po, lang, d), LocFineValues(ln, lang, d), lang, Kw(d));
    }
  }

  lemma LocRealKeys(t: PpdType, ln: bool, po: Catalog, lang: string, d: ParamDesc)
    requires d.bounds.RealBounds?
    ensures Translations(LocRealBody(t, ln, po, lang, d), lang, Kw(d)) == TranslatedKeys(ln, d)
  {
    var kw := Kw(d);
    LocRealValuesKeys(ln, lang, d);
    LocNoneKeys(po, lang, d);
    LocCustomNothing(po, lang, d);
    LocFineNothing(t, ln, po, lang, d);
    TranslationsFront(LocRealValues(ln, lang, d), LocNone(po, lang, d), LocCustom(po, lang, d), LocFine(t, ln, po, lang, d), lang, kw);
  }

  lemma LocDimKeys(po: Catalog, mm: (string, int) -> string, lang: string, d: ParamDesc)
    requires d.bounds.DimBounds?
    ensures Translations(LocDimValues(po, mm, lang, d), lang, Kw(d)) == MapNames(IntSteps(d.bounds.dlower, d.bounds.dupper), DecimalNamer())
  {
    TranslationsOfMap(IntSteps(d.bounds.dlower, d.bounds.dupper), LocDimAt(lang, Kw(d), Tr(po, "%.1f mm"), mm), DecimalNamer(), lang, Kw(d));
  }

  lemma LocIntKeys(ln: bool, lang: string, d: ParamDesc)
    requires d.bounds.IntBounds?
    ensures Translations(LocIntValues(ln, lang, d), lang, Kw(d))
      == if ln then MapNames(IntSteps(d.bounds.ilower, d.bounds.iupper), DecimalNamer()) else []
  {
    if ln {
      TranslationsOfMap(IntSteps(d.bounds.ilower, d.bounds.iupper), LocIntAt(lang, Kw(d)), DecimalNamer(), lang, Kw(d));
    }
  }

  /** The options `print_one_localization` translates under the parameter's keyword are
      `TranslatedKeys`. */
  lemma LocalizationTranslations(t: PpdType, ln: bool, po: Catalog, mm: (string, int) -> string, lang: string, d: ParamDesc)
    ensures Translations(LocalizationLines(t, ln, po, mm, lang, d), lang, Kw(d)) == TranslatedKeys(ln, d)
  {
    var kw := Kw(d);
    OtherKeywords(d);
    TranslationsAppend([LocTitle(po, lang, d)], LocTypedBody(t, ln, po, mm, lang, d), lang, kw);
    match d.bounds {
      case ListBounds(cs, _) =>
        TranslationsAppend(LocNone(po, lang, d), LocChoices(po, lang, kw, cs), lang, kw);
        LocChoicesKeys(po, lang, kw, cs);
      case BoolBounds(_) => LocBoolKeys(po, lang, d);
      case RealBounds(_, _, _) => LocRealKeys(t, ln, po, lang, d);
      case DimBounds(_, _, _) =>
        TranslationsAppend(LocNone(po, lang, d), LocDimValues(po, mm, lang, d), lang, kw);
        LocDimKeys(po, mm, lang, d);
      case IntBounds(_, _, _) =>
        TranslationsAppend(LocNone(po, lang, d), LocIntValues(ln, lang, d), lang, kw);
        LocIntKeys(ln, lang, d);
      case Opaque(_) =>
    }
  }

  /** With numbers localised, the localization pass translates exactly the choices the
      option declares, in the same order, for every parameter the colour filter leaves
      alone; the one exception is the "None" choice standing for a mandatory Double
      default that is off the grid, whose label is a number and is not translated. */
  lemma TranslationParity(t: PpdType, po: Catalog, lpo: Catalog, mm: (string, int) -> string, lname: string, lang: string, d: ParamDesc)
    requires !SkipColor(t, d)
    ensures var declared, translated := Declarations(OptionLines(t, po, mm, lname, d), Kw(d)),
      Translations(LocalizationLines(t, true, lpo, mm, lang, d), lang, Kw(d));
      (!d.bounds.RealBounds? ==> translated == declared)
      && (d.bounds.RealBounds? ==>
        declared == translated + (if d.isMandatory && !PrintedDefault(t, d) then ["None"] else []))
  {
    OptionDeclarations(t, po, mm, lname, d);
    LocalizationTranslations(t, true, lpo, mm, lang, d);
    KeysParity(t, d);
  }

  /** The keys an option declares against those its localization translates, with numbers
      localised and the colour filter off. */
  lemma KeysParity(t: PpdType, d: ParamDesc)
    requires !SkipColor(t, d)
    ensures !d.bounds.RealBounds? ==> TranslatedKeys(true, d) == Keys(t, d)
    ensures d.bounds.RealBounds? ==>
      Keys(t, d) == TranslatedKeys(true, d) + (if d.isMandatory && !PrintedDefault(t, d) then ["None"] else [])
  {
    if d.bounds.RealBounds? {
      RealKeysParity(t, d);
    } else if d.bounds.BoolBounds? {
      assert Keys(t, d) == OptionalNone(d) + [] + ["False", "True"];
    } else if d.bounds.IntBounds? {
      assert Keys(t, d) == OptionalNone(d) + [] + MapNames(IntSteps(d.bounds.ilower, d.bounds.iupper), DecimalNamer());
    }
  }

  lemma RealKeysParity(t: PpdType, d: ParamDesc)
    requires !SkipColor(t, d) && d.bounds.RealBounds?
    ensures Keys(t, d) == TranslatedKeys(true, d) + (if d.isMandatory && !PrintedDefault(t, d) then ["None"] else [])
  {
    var m := MapNames(RealSteps(d.bounds.rlower, d.bounds.rupper), RealNamer(d.isMandatory, d.bounds.rdeflt));
    assert Keys(t, d) == m + (if !d.isMandatory || !PrintedDefault(t, d) then ["None"] else []);
    assert TranslatedKeys(true, d) == m + OptionalNone(d);
  }

  /** Without localised numbers, the Double and Int values are not translated; only the
      synthesised "None" is. */
  lemma UnlocalizedNumbers(t: PpdType, po: Catalog, mm: (string, int) -> string, lang: string, d: ParamDesc)
    requires d.bounds.RealBounds? || d.bounds.IntBounds?
    ensures Translations(LocalizationLines(t, false, po, mm, lang, d), lang, Kw(d)) == OptionalNone(d)
  {
    LocalizationTranslations(t, false, po, mm, lang, d);
  }
}
