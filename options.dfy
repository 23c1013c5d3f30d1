/** One driver parameter as a PPD option (`print_one_option`), its translations
    (`print_one_localization`), the group headers around such options (`print_group`) and
    the list of options that are written by dedicated code instead (`is_special_option`). */
module Options {
  import opened Text
  import opened Ppd

  /** The code of a choice that sends nothing to the device: `: ""`. */
  const NoCode: string := " \"\""

  /** The main keyword of a parameter's option, and of its fine-adjustment companion. */
  function Kw(d: ParamDesc): string { "Stp" + d.name }
  function FineKw(d: ParamDesc): string { "StpFine" + d.name }

  /** In the variant without colour options, colour parameters are shown but not offered. */
  predicate SkipColor(t: PpdType, d: ParamDesc) { t == NoColorOpts && d.isColor }

  function BoolName(b: bool): string { if b then "True" else "False" }
  function BoolText(b: bool): string { if b then "Yes" else "No" }

  // ----- Lines shared by several parameter types -----

  function Header(po: Catalog, d: ParamDesc): seq<Line>
  {
    (if d.isColor then [Plain("*ColorKeyWords: \"Stp" + d.name + "\"\n")] else [])
    + [Choice(false, "OpenUI", "*Stp" + d.name, Tr(po, d.text), " PickOne"),
       Plain("*OrderDependency: 10 AnySetup *Stp" + d.name + "\n")]
  }

  function Hint(key: string, hint: string): Line
  {
    Plain("*OPOptionHints " + key + ": \"" + hint + "\"\n")
  }

  /** "*StpStp<suffix>: type mandatory class level channel lower upper default", the last
      three in thousandths. */
  function StpStpLine(suffix: string, ty: int, mand: int, cls: int, lvl: int, ch: int, a: int, b: int, c: int): Line
  {
    Plain("*StpStp" + suffix + ": " + IntToString(ty) + " " + IntToString(mand) + " " + IntToString(cls) + " "
      + IntToString(lvl) + " " + IntToString(ch) + " " + Thousandths(a) + " " + Thousandths(b) + " " + Thousandths(c) + "\n")
  }

  function Fields(d: ParamDesc, a: int, b: int, c: int): Line
  {
    StpStpLine(d.name, TypeCode(PType(d)), if d.isMandatory then 1 else 0, d.pClass, d.pLevel, d.channel, a, b, c)
  }

  function Defaults(kw: string, v: string): seq<Line>
  {
    [Plain("*Default" + kw + ": " + v + "\n"), Plain("*StpDefault" + kw + ": " + v + "\n")]
  }

  function NoneChoice(po: Catalog, kw: string): Line
  {
    Choice(false, kw, "None", Tr(po, "None"), NoCode)
  }

  /** The default lines of a parameter with the given default value; an optional parameter
      defaults to the synthesised "None" choice. */
  function DefaultLines(po: Catalog, d: ParamDesc, v: string): seq<Line>
  {
    if d.isMandatory then Defaults(Kw(d), v) else Defaults(Kw(d), "None") + [NoneChoice(po, Kw(d))]
  }

  function CloseUI(kw: string): Line
  {
    Plain("*CloseUI: *" + kw + "\n\n")
  }

  // ----- Choice lines -----

  /** One line per string-list entry; an entry other than the default is marked ignorable
      when `masked` is set. */
  function ListLines(po: Catalog, kw: string, masked: bool, deflt: string, cs: seq<StringOpt>): (ls: seq<Line>)
    ensures |ls| == |cs|
  {
    if |cs| == 0 then []
    else
      var first := Choice(masked && cs[0].name != deflt, kw, cs[0].name, Tr(po, cs[0].text), NoCode);
      [first] + ListLines(po, kw, masked, deflt, cs[1..])
  }

  /** The option name of a Double value in thousandths: a mandatory parameter's default is
      offered as "None". */
  function RealName(mand: bool, deflt: int, i: int): string
  {
    if deflt == i && mand then "None" else IntToString(i)
  }

  function RealChoiceAt(kw: string, mand: bool, deflt: int): int -> Line
  {
    (i: int) => Choice(false, kw, RealName(mand, deflt, i), Thousandths(i), NoCode)
  }

  function FineChoiceAt(kw: string): int -> Line
  {
    (i: int) => Choice(false, kw, IntToString(i), Thousandths(i), NoCode)
  }

  function DimChoiceAt(kw: string, fmt: string, mm: (string, int) -> string): int -> Line
  {
    (i: int) => Choice(false, kw, IntToString(i), mm(fmt, i), NoCode)
  }

  function IntChoiceAt(kw: string, masked: bool): int -> Line
  {
    (i: int) => Choice(masked, kw, IntToString(i), IntToString(i), NoCode)
  }

  /** The Double values offered: every tenth from the lower to the upper bound (thousandths). */
  function RealSteps(lo: int, hi: int): seq<int> { Steps(lo, hi, 100) }

  /** The fine adjustments offered: 0 to 95 thousandths in steps of 5. */
  function FineSteps(): seq<int> { Steps(0, 99, 5) }

  /** Every integer of a Dimension or Int range. */
  function IntSteps(lo: int, hi: int): seq<int> { Steps(lo, hi, 1) }

  // ----- print_one_option -----

  /** The lines of a string-list option before its entries: the hint, the field line and
      the defaults. */
  function ListHead(t: PpdType, po: Catalog, lname: string, d: ParamDesc): seq<Line>
    requires d.bounds.ListBounds?
  {
    var cs := d.bounds.choices;
    (if SkipColor(t, d) then [] else [Hint("Stp" + lname, if |cs| > 3 then "dropdown" else "radiobuttons")])
    + [Fields(d, 0, 0, 0)]
    + DefaultLines(po, d, d.bounds.deflt)
  }

  function ListBody(t: PpdType, po: Catalog, lname: string, d: ParamDesc): seq<Line>
    requires d.bounds.ListBounds?
  {
    ListHead(t, po, lname, d) + ListLines(po, Kw(d), SkipColor(t, d), d.bounds.deflt, d.bounds.choices) + [CloseUI(Kw(d))]
  }

  function BoolBody(t: PpdType, po: Catalog, lname: string, d: ParamDesc): seq<Line>
    requires d.bounds.BoolBounds?
  {
    var b, kw, masked := d.bounds.bdeflt, Kw(d), SkipColor(t, d);
    [Hint("Stp" + lname, "checkbox"), Fields(d, 0, 0, if b then 1000 else 0)]
    + DefaultLines(po, d, BoolName(b))
    + (if d.isMandatory && masked then [Choice(false, kw, BoolName(b), Tr(po, BoolText(b)), NoCode)] else [])
    + [Choice(masked, kw, "False", Tr(po, "No"), NoCode), Choice(masked, kw, "True", Tr(po, "Yes"), NoCode)]
    + [CloseUI(kw)]
  }

  /** Whether the value loop offered the default as "None". */
  predicate PrintedDefault(t: PpdType, d: ParamDesc)
    requires d.bounds.RealBounds?
  {
    !SkipColor(t, d) && d.isMandatory && d.bounds.rdeflt in RealSteps(d.bounds.rlower, d.bounds.rupper)
  }

  function FineHead(po: Catalog, lname: string, d: ParamDesc): seq<Line>
  {
    var fkw := FineKw(d);
    (if d.isColor then [Plain("*ColorKeyWords: \"StpFine" + d.name + "\"\n")] else [])
    + [Choice(false, "OpenUI", "*" + fkw, Tr(po, d.text) + " " + Tr(po, "Fine Adjustment"), " PickOne"),
       Hint("StpFine" + lname, "hide"),
       StpStpLine("Fine" + d.name, TypeCode(Invalid), 0, 0, 0, -1, 0, 0, 0)]
    + Defaults(fkw, "None")
    + [Choice(false, fkw, "None", "0.000", NoCode)]
  }

  /** The hidden fine-adjustment companion of a Double option. */
  function FineBlock(po: Catalog, lname: string, d: ParamDesc): seq<Line>
  {
    FineHead(po, lname, d) + MapLines(FineSteps(), FineChoiceAt(FineKw(d))) + [CloseUI(FineKw(d))]
  }

  function RealHead(lname: string, d: ParamDesc): seq<Line>
    requires d.bounds.RealBounds?
  {
    [Hint("Stp" + lname, "slider input spinbox"), Fields(d, d.bounds.rlower, d.bounds.rupper, d.bounds.rdeflt)]
    + Defaults(Kw(d), "None")
  }

  function RealValues(t: PpdType, d: ParamDesc): seq<Line>
    requires d.bounds.RealBounds?
  {
    if SkipColor(t, d) then []
    else MapLines(RealSteps(d.bounds.rlower, d.bounds.rupper), RealChoiceAt(Kw(d), d.isMandatory, d.bounds.rdeflt))
  }

  /** The "None" choice after the values: synthesised for an optional parameter, and
      standing for the default of a mandatory one that the values did not include. */
  function RealNone(t: PpdType, po: Catalog, d: ParamDesc): seq<Line>
    requires d.bounds.RealBounds?
  {
    if !d.isMandatory then [NoneChoice(po, Kw(d))]
    else if !PrintedDefault(t, d) then [Choice(false, Kw(d), "None", Thousandths(d.bounds.rdeflt), NoCode)]
    else []
  }

  /** The closing line and the custom-value declaration of a Double option. */
  function RealTail(po: Catalog, d: ParamDesc): seq<Line>
    requires d.bounds.RealBounds?
  {
    [CloseUI(Kw(d)),
     Plain("*CustomStp" + d.name + " True: \"pop\"\n"),
     Choice(false, "ParamCustomStp" + d.name, "Value", Tr(po, "Value"),
       " 1 real " + Thousandths(d.bounds.rlower) + " " + Thousandths(d.bounds.rupper)),
     Plain("\n")]
  }

  function RealFine(t: PpdType, po: Catalog, lname: string, d: ParamDesc): seq<Line>
  {
    if t != Simplified && !SkipColor(t, d) then FineBlock(po, lname, d) else []
  }

  function RealBody(t: PpdType, po: Catalog, lname: string, d: ParamDesc): seq<Line>
    requires d.bounds.RealBounds?
  {
    RealHead(lname, d) + RealValues(t, d) + RealNone(t, po, d) + RealTail(po, d) + RealFine(t, po, lname, d)
  }

  function DimHead(po: Catalog, lname: string, d: ParamDesc): seq<Line>
    requires d.bounds.DimBounds?
  {
    var lo, hi, df := d.bounds.dlower, d.bounds.dupper, d.bounds.ddeflt;
    [Hint("Stp" + lname, "length slider input spinbox"), Fields(d, lo * 1000, hi * 1000, df * 1000)]
    + DefaultLines(po, d, IntToString(df))
  }

  function DimValues(t: PpdType, po: Catalog, mm: (string, int) -> string, d: ParamDesc): seq<Line>
    requires d.bounds.DimBounds?
  {
    if SkipColor(t, d) then []
    else MapLines(IntSteps(d.bounds.dlower, d.bounds.dupper), DimChoiceAt(Kw(d), Tr(po, "%.1f mm"), mm))
  }

  function DimBody(t: PpdType, po: Catalog, mm: (string, int) -> string, lname: string, d: ParamDesc): seq<Line>
    requires d.bounds.DimBounds?
  {
    DimHead(po, lname, d) + DimValues(t, po, mm, d) + [CloseUI(Kw(d))]
  }

  function IntHead(t: PpdType, po: Catalog, lname: string, d: ParamDesc): seq<Line>
    requires d.bounds.IntBounds?
  {
    var lo, hi, df := d.bounds.ilower, d.bounds.iupper, d.bounds.ideflt;
    [Hint("Stp" + lname, "input spinbox"), Fields(d, lo * 1000, hi * 1000, df * 1000)]
    + DefaultLines(po, d, IntToString(df))
    + (if d.isMandatory && SkipColor(t, d) then [Choice(false, Kw(d), IntToString(df), IntToString(df), NoCode)] else [])
  }

  function IntBody(t: PpdType, po: Catalog, lname: string, d: ParamDesc): seq<Line>
    requires d.bounds.IntBounds?
  {
    IntHead(t, po, lname, d) + MapLines(IntSteps(d.bounds.ilower, d.bounds.iupper), IntChoiceAt(Kw(d), SkipColor(t, d)))
    + [CloseUI(Kw(d))]
  }

  /** `print_one_option` for the parameter `d`, listed under the name `lname`, with the
      catalog `po`; `mm` formats a length in points with the (translated) "%.1f mm" format. */
  function OptionLines(t: PpdType, po: Catalog, mm: (string, int) -> string, lname: string, d: ParamDesc): seq<Line>
  {
    Header(po, d) + TypedBody(t, po, mm, lname, d)
  }

  /** What follows the header, by parameter type: other types get only the closing line. */
  function TypedBody(t: PpdType, po: Catalog, mm: (string, int) -> string, lname: string, d: ParamDesc): seq<Line>
  {
    match d.bounds
    case ListBounds(_, _) => ListBody(t, po, lname, d)
    case BoolBounds(_) => BoolBody(t, po, lname, d)
    case RealBounds(_, _, _) => RealBody(t, po, lname, d)
    case DimBounds(_, _, _) => DimBody(t, po, mm, lname, d)
    case IntBounds(_, _, _) => IntBody(t, po, lname, d)
    case Opaque(_) => [CloseUI(Kw(d))]
  }

  /** One turn of a `for (i = lo; i <= hi; i += step)` loop. */
  lemma StepsUnfold(i: int, hi: int, step: nat, f: int -> Line)
    requires step > 0 && i <= hi
    ensures Steps(i, hi, step) == [i] + Steps(i + step, hi, step)
    ensures MapLines(Steps(i, hi, step), f) == [f(i)] + MapLines(Steps(i + step, hi, step), f)
  {
  }

  /** `for (i = lo; i <= hi; i += step)`, writing line `f(i)` for each value. */
  method Enumerate(lo: int, hi: int, step: nat, f: int -> Line) returns (lines: seq<Line>)
    requires step > 0
    ensures lines == MapLines(Steps(lo, hi, step), f)
  {
    lines := [];
    var i := lo;
    while i <= hi
      invariant lines + MapLines(Steps(i, hi, step), f) == MapLines(Steps(lo, hi, step), f)
      decreases hi - i
    {
      StepsUnfold(i, hi, step, f);
      lines := lines + [f(i)];
      i := i + step;
    }
  }

  /** The loop over the entries of a string list. */
  method EnumerateList(po: Catalog, kw: string, masked: bool, deflt: string, cs: seq<StringOpt>) returns (lines: seq<Line>)
    ensures lines == ListLines(po, kw, masked, deflt, cs)
  {
    lines := [];
    var i := 0;
    while i < |cs|
      invariant i <= |cs|
      invariant lines + ListLines(po, kw, masked, deflt, cs[i..]) == ListLines(po, kw, masked, deflt, cs)
    {
      assert cs[i..][1..] == cs[i + 1..];
      var opt := cs[i];
      var line := Choice(masked && opt.name != deflt, kw, opt.name, Tr(po, opt.text), NoCode);
      ghost var rest := ListLines(po, kw, masked, deflt, cs[i + 1..]);
      assert ListLines(po, kw, masked, deflt, cs[i..]) == [line] + rest;
      AppendAssoc(lines, [line], rest);
      lines := lines + [line];
      i := i + 1;
    }
  }

  /** The value loop of a Double parameter; it also reports whether it offered the default. */
  method EnumerateReal(kw: string, mand: bool, deflt: int, lo: int, hi: int) returns (lines: seq<Line>, printed: bool)
    ensures lines == MapLines(RealSteps(lo, hi), RealChoiceAt(kw, mand, deflt))
    ensures printed <==> mand && deflt in RealSteps(lo, hi)
  {
    lines := [];
    printed := false;
    var i := lo;
    ghost var visited: seq<int> := [];
    while i <= hi
      invariant visited + Steps(i, hi, 100) == Steps(lo, hi, 100)
      invariant lines == MapLines(visited, RealChoiceAt(kw, mand, deflt))
      invariant printed <==> mand && deflt in visited
      decreases hi - i
    {
      StepsStep(visited, i, hi);
      if deflt == i && mand {
        lines := lines + [Choice(false, kw, "None", Thousandths(i), NoCode)];
        printed := true;
      } else {
        lines := lines + [Choice(false, kw, IntToString(i), Thousandths(i), NoCode)];
      }
      MapLinesSnoc(visited, i, RealChoiceAt(kw, mand, deflt));
      visited := visited + [i];
      i := i + 100;
    }
    assert visited == Steps(lo, hi, 100);
  }

  lemma StepsStep(visited: seq<int>, i: int, hi: int)
    requires i <= hi
    ensures (visited + [i]) + Steps(i + 100, hi, 100) == visited + Steps(i, hi, 100)
  {
    assert Steps(i, hi, 100) == [i] + Steps(i + 100, hi, 100);
  }

  /** `print_one_option`. */
  method PrintOneOption(t: PpdType, po: Catalog, mm: (string, int) -> string, lname: string, d: ParamDesc)
    returns (lines: seq<Line>)
    ensures lines == OptionLines(t, po, mm, lname, d)
  {
    var body: seq<Line>;
    match d.bounds {
      case ListBounds(_, _) =>
        body := PrintListBody(t, po, lname, d);
      case BoolBounds(_) =>
        body := BoolBody(t, po, lname, d);
      case RealBounds(_, _, _) =>
        body := PrintRealBody(t, po, lname, d);
      case DimBounds(_, _, _) =>
        body := PrintDimBody(t, po, mm, lname, d);
      case IntBounds(_, _, _) =>
        body := PrintIntBody(t, po, lname, d);
      case Opaque(_) =>
        body := [CloseUI("Stp" + d.name)];
    }
    lines := Header(po, d) + body;
  }

  method PrintListBody(t: PpdType, po: Catalog, lname: string, d: ParamDesc) returns (body: seq<Line>)
    requires d.bounds.ListBounds?
    ensures body == ListBody(t, po, lname, d)
  {
    var kw := "Stp" + d.name;
    body := ListHead(t, po, lname, d);
    var choices := EnumerateList(po, kw, t == NoColorOpts && d.isColor, d.bounds.deflt, d.bounds.choices);
    body := body + choices + [CloseUI(kw)];
  }

  method PrintRealBody(t: PpdType, po: Catalog, lname: string, d: ParamDesc) returns (body: seq<Line>)
    requires d.bounds.RealBounds?
    ensures body == RealBody(t, po, lname, d)
  {
    var skip := t == NoColorOpts && d.isColor;
    var kw := "Stp" + d.name;
    var df := d.bounds.rdeflt;
    var values: seq<Line> := [];
    var printed := false;
    if !skip {
      values, printed := EnumerateReal(kw, d.isMandatory, df, d.bounds.rlower, d.bounds.rupper);
    }
    assert values == RealValues(t, d);
    var none: seq<Line>;
    if !d.isMandatory {
      none := [NoneChoice(po, kw)];
    } else if !printed {
      none := [Choice(false, kw, "None", Thousandths(df), NoCode)];
    } else {
      none := [];
    }
    assert none == RealNone(t, po, d);
    var fine: seq<Line> := [];
    if t != Simplified && !skip {
      fine := PrintFine(po, lname, d);
    }
    RealBodyPieces(t, po, lname, d, values, none, fine);
    body := RealHead(lname, d) + values + none + RealTail(po, d) + fine;
  }

  lemma RealBodyPieces(t: PpdType, po: Catalog, lname: string, d: ParamDesc, values: seq<Line>, none: seq<Line>, fine: seq<Line>)
    requires d.bounds.RealBounds?
    requires values == RealValues(t, d) && none == RealNone(t, po, d) && fine == RealFine(t, po, lname, d)
    ensures RealHead(lname, d) + values + none + RealTail(po, d) + fine == RealBody(t, po, lname, d)
  {
  }

  method PrintDimBody(t: PpdType, po: Catalog, mm: (string, int) -> string, lname: string, d: ParamDesc)
    returns (body: seq<Line>)
    requires d.bounds.DimBounds?
    ensures body == DimBody(t, po, mm, lname, d)
  {
    var kw := "Stp" + d.name;
    body := DimHead(po, lname, d);
    var values: seq<Line> := [];
    if !(t == NoColorOpts && d.isColor) {
      values := Enumerate(d.bounds.dlower, d.bounds.dupper, 1, DimChoiceAt(kw, Tr(po, "%.1f mm"), mm));
    }
    body := body + values + [CloseUI(kw)];
  }

  method PrintIntBody(t: PpdType, po: Catalog, lname: string, d: ParamDesc) returns (body: seq<Line>)
    requires d.bounds.IntBounds?
    ensures body == IntBody(t, po, lname, d)
  {
    var kw := "Stp" + d.name;
    body := IntHead(t, po, lname, d);
    var values := Enumerate(d.bounds.ilower, d.bounds.iupper, 1, IntChoiceAt(kw, t == NoColorOpts && d.isColor));
    body := body + values + [CloseUI(kw)];
  }

  /** The fine-adjustment companion of a Double option. */
  method PrintFine(po: Catalog, lname: string, d: ParamDesc) returns (lines: seq<Line>)
    ensures lines == FineBlock(po, lname, d)
  {
    var fkw := "StpFine" + d.name;
    lines := FineHead(po, lname, d);
    var values := Enumerate(0, 99, 5, FineChoiceAt(fkw));
    lines := lines + values + [CloseUI(fkw)];
  }

  // ----- print_one_localization -----

  /** The translation of an optional parameter's "None" choice. */
  function LocNone(po: Catalog, lang: string, d: ParamDesc): seq<Line>
  {
    if d.isMandatory then [] else [Localized(lang, Kw(d), "None", Tr(po, "None"))]
  }

  /** One translation line per string-list entry. */
  function LocChoices(po: Catalog, lang: string, kw: string, cs: seq<StringOpt>): (ls: seq<Line>)
    ensures |ls| == |cs|
  {
    if |cs| == 0 then []
    else [Localized(lang, kw, cs[0].name, Tr(po, cs[0].text))] + LocChoices(po, lang, kw, cs[1..])
  }

  function LocRealAt(lang: string, kw: string, mand: bool, deflt: int): int -> Line
  {
    (i: int) => Localized(lang, kw, RealName(mand, deflt, i), Thousandths(i))
  }

  function LocFineAt(lang: string, kw: string): int -> Line
  {
    (i: int) => Localized(lang, kw, IntToString(i), Thousandths(i))
  }

  function LocDimAt(lang: string, kw: string, fmt: string, mm: (string, int) -> string): int -> Line
  {
    (i: int) => Localized(lang, kw, IntToString(i), mm(fmt, i))
  }

  function LocIntAt(lang: string, kw: string): int -> Line
  {
    (i: int) => Localized(lang, kw, IntToString(i), IntToString(i))
  }

  function LocTitle(po: Catalog, lang: string, d: ParamDesc): Line
  {
    Localized(lang, "Translation", Kw(d), Tr(po, d.text))
  }

  function LocBoolBody(po: Catalog, lang: string, d: ParamDesc): seq<Line>
  {
    LocNone(po, lang, d) + [Localized(lang, Kw(d), "False", Tr(po, "No")), Localized(lang, Kw(d), "True", Tr(po, "Yes"))]
  }

  /** The Double values, translated only when numbers are localised. */
  function LocRealValues(ln: bool, lang: string, d: ParamDesc): seq<Line>
    requires d.bounds.RealBounds?
  {
    if ln then MapLines(RealSteps(d.bounds.rlower, d.bounds.rupper), LocRealAt(lang, Kw(d), d.isMandatory, d.bounds.rdeflt))
    else []
  }

  function LocCustom(po: Catalog, lang: string, d: ParamDesc): seq<Line>
  {
    [Localized(lang, "ParamCustomStp" + d.name, "Value", Tr(po, "Value"))]
  }

  function LocFineHead(po: Catalog, lang: string, d: ParamDesc): seq<Line>
  {
    [Localized(lang, "Translation", FineKw(d), Tr(po, d.text) + " " + Tr(po, "Fine Adjustment")),
     Localized(lang, FineKw(d), "None", "0.000")]
  }

  function LocFineValues(ln: bool, lang: string, d: ParamDesc): seq<Line>
  {
    if ln then MapLines(FineSteps(), LocFineAt(lang, FineKw(d))) else []
  }

  /** The fine-adjustment translations; unlike the option itself they do not depend on
      the colour filter. */
  function LocFine(t: PpdType, ln: bool, po: Catalog, lang: string, d: ParamDesc): seq<Line>
  {
    if t == Simplified then [] else LocFineHead(po, lang, d) + LocFineValues(ln, lang, d)
  }

  function LocRealBody(t: PpdType, ln: bool, po: Catalog, lang: string, d: ParamDesc): seq<Line>
    requires d.bounds.RealBounds?
  {
    LocRealValues(ln, lang, d) + LocNone(po, lang, d) + LocCustom(po, lang, d) + LocFine(t, ln, po, lang, d)
  }

  /** The Dimension values are translated whatever the colour filter and the number setting. */
  function LocDimValues(po: Catalog, mm: (string, int) -> string, lang: string, d: ParamDesc): seq<Line>
    requires d.bounds.DimBounds?
  {
    MapLines(IntSteps(d.bounds.dlower, d.bounds.dupper), LocDimAt(lang, Kw(d), Tr(po, "%.1f mm"), mm))
  }

  function LocIntValues(ln: bool, lang: string, d: ParamDesc): seq<Line>
    requires d.bounds.IntBounds?
  {
    if ln then MapLines(IntSteps(d.bounds.ilower, d.bounds.iupper), LocIntAt(lang, Kw(d))) else []
  }

  function LocTypedBody(t: PpdType, ln: bool, po: Catalog, mm: (string, int) -> string, lang: string, d: ParamDesc): seq<Line>
  {
    match d.bounds
    case ListBounds(cs, _) => LocNone(po, lang, d) + LocChoices(po, lang, Kw(d), cs)
    case BoolBounds(_) => LocBoolBody(po, lang, d)
    case RealBounds(_, _, _) => LocRealBody(t, ln, po, lang, d)
    case DimBounds(_, _, _) => LocNone(po, lang, d) + LocDimValues(po, mm, lang, d)
    case IntBounds(_, _, _) => LocNone(po, lang, d) + LocIntValues(ln, lang, d)
    case Opaque(_) => []
  }

  /** `print_one_localization` into language `lang`; `ln` is the program's setting that
      decides whether numeric choices get translation lines. */
  function LocalizationLines(t: PpdType, ln: bool, po: Catalog, mm: (string, int) -> string, lang: string, d: ParamDesc): seq<Line>
  {
    [LocTitle(po, lang, d)] + LocTypedBody(t, ln, po, mm, lang, d)
  }

  /** The loop over the entries of a string list, translated. */
  method LocalizeList(po: Catalog, lang: string, kw: string, cs: seq<StringOpt>) returns (lines: seq<Line>)
    ensures lines == LocChoices(po, lang, kw, cs)
  {
    lines := [];
    var i := 0;
    while i < |cs|
      invariant i <= |cs|
      invariant lines + LocChoices(po, lang, kw, cs[i..]) == LocChoices(po, lang, kw, cs)
    {
      assert cs[i..][1..] == cs[i + 1..];
      ghost var rest := LocChoices(po, lang, kw, cs[i + 1..]);
      var line := Localized(lang, kw, cs[i].name, Tr(po, cs[i].text));
      AppendAssoc(lines, [line], rest);
      lines := lines + [line];
      i := i + 1;
    }
  }

  method LocalizeReal(t: PpdType, ln: bool, po: Catalog, lang: string, d: ParamDesc) returns (body: seq<Line>)
    requires d.bounds.RealBounds?
    ensures body == LocRealBody(t, ln, po, lang, d)
  {
    var kw := "Stp" + d.name;
    body := [];
    if ln {
      body := Enumerate(d.bounds.rlower, d.bounds.rupper, 100, LocRealAt(lang, kw, d.isMandatory, d.bounds.rdeflt));
    }
    body := body + LocNone(po, lang, d) + LocCustom(po, lang, d);
    var fine: seq<Line> := [];
    if t != Simplified {
      fine := LocFineHead(po, lang, d);
      var values: seq<Line> := [];
      if ln {
        values := Enumerate(0, 99, 5, LocFineAt(lang, "StpFine" + d.name));
      }
      fine := fine + values;
    }
    body := body + fine;
  }

  /** `print_one_localization`. */
  method PrintOneLocalization(t: PpdType, ln: bool, po: Catalog, mm: (string, int) -> string, lang: string, d: ParamDesc)
    returns (lines: seq<Line>)
    ensures lines == LocalizationLines(t, ln, po, mm, lang, d)
  {
    var kw := "Stp" + d.name;
    var body: seq<Line>;
    match d.bounds {
      case ListBounds(cs, _) =>
        var entries := LocalizeList(po, lang, kw, cs);
        body := LocNone(po, lang, d) + entries;
      case BoolBounds(_) =>
        body := LocBoolBody(po, lang, d);
      case RealBounds(_, _, _) =>
        body := LocalizeReal(t, ln, po, lang, d);
      case DimBounds(lo, hi, _) =>
        var values := Enumerate(lo, hi, 1, LocDimAt(lang, kw, Tr(po, "%.1f mm"), mm));
        body := LocNone(po, lang, d) + values;
      case IntBounds(lo, hi, _) =>
        var values: seq<Line> := [];
        if ln {
          values := Enumerate(lo, hi, 1, LocIntAt(lang, kw));
        }
        body := LocNone(po, lang, d) + values;
      case Opaque(_) =>
        body := [];
    }
    lines := [LocTitle(po, lang, d)] + body;
  }

  // ----- is_special_option -----

  /** Options written by dedicated code, never as a generic option. */
  const SpecialOptions: seq<string> := ["PageSize", "MediaType", "InputSlot", "Resolution", "OutputOrder", "Quality", "Duplex"]

  /** The names of the table, one by one. */
  predicate SpecialName(name: string)
  {
    name == "PageSize" || name == "MediaType" || name == "InputSlot" || name == "Resolution"
    || name == "OutputOrder" || name == "Quality" || name == "Duplex"
  }

  lemma SpecialNameIn(name: string)
    ensures SpecialName(name) <==> name in SpecialOptions
  {
    if name in SpecialOptions {
      var i :| 0 <= i < |SpecialOptions| && SpecialOptions[i] == name;
      assert i < 7;
    }
  }

  /** `is_special_option`: a scan of the table. */
  method IsSpecialOption(name: string) returns (r: bool)
    ensures r <==> name in SpecialOptions
  {
    var i := 0;
    while i < |SpecialOptions|
      invariant i <= |SpecialOptions|
      invariant name !in SpecialOptions[..i]
    {
      if name == SpecialOptions[i] {
        return true;
      }
      assert SpecialOptions[..i + 1] == SpecialOptions[..i] + [SpecialOptions[i]];
      i := i + 1;
    }
    assert SpecialOptions[..i] == SpecialOptions;
    return false;
  }

  // ----- print_group -----

  /** The label of a group: class and level names, a space between them only when their
      byte lengths add up to less than 39, the whole cut to 39 bytes by the 40-byte buffer. */
  function GroupLabel(cls: string, lvl: string): string
  {
    Truncate(cls + (if |cls| + |lvl| < 39 then " " else "") + lvl, 40)
  }

  /** The label keeps both names whole when their lengths sum to at most 39 bytes, and
      is otherwise their first 39 bytes with no separating space. */
  lemma GroupLabelShape(cls: string, lvl: string)
    ensures |GroupLabel(cls, lvl)| <= 39
    ensures |cls| + |lvl| < 39 ==> GroupLabel(cls, lvl) == cls + " " + lvl
    ensures |cls| + |lvl| == 39 ==> GroupLabel(cls, lvl) == cls + lvl
    ensures |cls| + |lvl| > 39 ==> GroupLabel(cls, lvl) == (cls + lvl)[..39]
  {
    // Follows by unfolding `GroupLabel` and `Truncate`, one case per length.
  }

  /** The "C<class>L<level>" key of a group. */
  function GroupKey(pClass: nat, pLevel: nat): string
  {
    "C" + IntToString(pClass) + "L" + IntToString(pLevel)
  }

  /** A string `bytelen` measures whole: it has no NUL byte. */
  predicate CString(s: string) { '\0' !in s }

  /** A catalog of C strings. */
  predicate CCatalog(po: Catalog) { forall m :: m in po ==> CString(po[m]) }

  /** Every catalog `load` finds is one of C strings. */
  ghost predicate CatalogsC(load: string -> Option<Catalog>) { forall lang :: load(lang).Some? ==> CCatalog(load(lang).value) }

  lemma TrCString(po: Catalog, s: string)
    requires CCatalog(po) && (s in ClassNames || s in LevelNames)
    ensures CString(Tr(po, s))
  {
  }

  /** The translations of a group label into every language of the list other than "C"
      and "en" that has a catalog. */
  function GroupTranslations(langs: seq<string>, load: string -> Option<Catalog>, pClass: nat, pLevel: nat): seq<Line>
    requires pClass < |ClassNames| && pLevel < |LevelNames|
  {
    if |langs| == 0 then []
    else GroupTranslation(langs[0], load, pClass, pLevel) + GroupTranslations(langs[1..], load, pClass, pLevel)
  }

  function GroupTranslation(lang: string, load: string -> Option<Catalog>, pClass: nat, pLevel: nat): seq<Line>
    requires pClass < |ClassNames| && pLevel < |LevelNames|
  {
    if lang == "C" || lang == "en" || load(lang).None? then []
    else
      var alt := load(lang).value;
      [Localized(lang, "Translation", GroupKey(pClass, pLevel), GroupLabel(Tr(alt, ClassNames[pClass]), Tr(alt, LevelNames[pLevel])))]
  }

  /** `print_group`: opening ("Open") or closing ("Close") a group; only an opening in the
      "C" language lists the translations. */
  function GroupLines(what: string, pClass: nat, pLevel: nat, language: Option<string>, po: Catalog,
                      langs: seq<string>, load: string -> Option<Catalog>): seq<Line>
    requires pClass < |ClassNames| && pLevel < |LevelNames|
  {
    [Plain("*" + what + "Group: " + GroupKey(pClass, pLevel) + "/" + GroupLabel(Tr(po, ClassNames[pClass]), Tr(po, LevelNames[pLevel])) + "\n")]
    + (if language == Some("C") && what == "Open" then GroupTranslations(langs, load, pClass, pLevel) else [])
    + [Plain("\n")]
  }

  /** The label `print_group` builds with `bytelen` and `snprintf`. */
  method MakeLabel(cls: string, lvl: string) returns (text: string)
    requires CString(cls) && CString(lvl)
    ensures text == GroupLabel(cls, lvl)
  {
    var a := ByteLen(cls + "\0");
    var b := ByteLen(lvl + "\0");
    assert (cls + "\0")[|cls|] == '\0';
    assert (lvl + "\0")[|lvl|] == '\0';
    assert a == |cls|;
    assert b == |lvl|;
    var bytes := a + b;
    text := Truncate(cls + (if bytes < 39 then " " else "") + lvl, 40);
  }

  /** The body of that loop for one language. */
  method TranslateGroupInto(lang: string, load: string -> Option<Catalog>, pClass: nat, pLevel: nat)
    returns (entry: seq<Line>)
    requires pClass < |ClassNames| && pLevel < |LevelNames|
    requires CatalogsC(load)
    ensures entry == GroupTranslation(lang, load, pClass, pLevel)
  {
    entry := [];
    if lang != "C" && lang != "en" {
      var altpo := load(lang);
      if altpo.Some? {
        var aclass := Tr(altpo.value, ClassNames[pClass]);
        var alevel := Tr(altpo.value, LevelNames[pLevel]);
        TrCString(altpo.value, ClassNames[pClass]);
        TrCString(altpo.value, LevelNames[pLevel]);
        var alabel := MakeLabel(aclass, alevel);
        entry := [Localized(lang, "Translation", GroupKey(pClass, pLevel), alabel)];
      }
    }
  }

  /** The loop of `print_group` over the languages. */
  method TranslateGroup(all: seq<string>, load: string -> Option<Catalog>, pClass: nat, pLevel: nat)
    returns (translations: seq<Line>)
    requires pClass < |ClassNames| && pLevel < |LevelNames|
    requires CatalogsC(load)
    ensures translations == GroupTranslations(all, load, pClass, pLevel)
  {
    translations := [];
    var n := 0;
    while n < |all|
      invariant n <= |all|
      invariant translations + GroupTranslations(all[n..], load, pClass, pLevel) == GroupTranslations(all, load, pClass, pLevel)
    {
      translations := NextTranslation(all, n, translations, load, pClass, pLevel);
      n := n + 1;
    }
  }

  /** One round of that loop: the translation into `all[n]` joins the ones before it. */
  method NextTranslation(all: seq<string>, n: nat, done: seq<Line>, load: string -> Option<Catalog>, pClass: nat, pLevel: nat)
    returns (translations: seq<Line>)
    requires n < |all| && pClass < |ClassNames| && pLevel < |LevelNames|
    requires CatalogsC(load)
    requires done + GroupTranslations(all[n..], load, pClass, pLevel) == GroupTranslations(all, load, pClass, pLevel)
    ensures translations + GroupTranslations(all[n + 1..], load, pClass, pLevel) == GroupTranslations(all, load, pClass, pLevel)
  {
    var rest := GroupTranslations(all[n + 1..], load, pClass, pLevel);
    assert all[n..][1..] == all[n + 1..];
    assert GroupTranslations(all[n..], load, pClass, pLevel) == GroupTranslation(all[n], load, pClass, pLevel) + rest;
    var entry := TranslateGroupInto(all[n], load, pClass, pLevel);
    translations := done + entry;
    AppendAssoc(done, entry, rest);
  }

  /** `print_group`; the language list comes from `getlangs` and `load` stands for
      `stp_i18n_load`. */
  method PrintGroup(what: string, pClass: nat, pLevel: nat, language: Option<string>, po: Catalog,
                    langList: LanguageList, load: string -> Option<Catalog>) returns (lines: seq<Line>)
    requires pClass < |ClassNames| && pLevel < |LevelNames|
    requires CCatalog(po) && CatalogsC(load)
    requires langList.Valid()
    modifies langList
    ensures langList.Valid() && langList.langs == Some(SplitAt(langList.allLinguas, ' '))
    ensures lines == GroupLines(what, pClass, pLevel, language, po, SplitAt(langList.allLinguas, ' '), load)
  {
    var cls := Tr(po, ClassNames[pClass]);
    var lvl := Tr(po, LevelNames[pLevel]);
    TrCString(po, ClassNames[pClass]);
    TrCString(po, LevelNames[pLevel]);
    var groupLabel := MakeLabel(cls, lvl);
    lines := [Plain("*" + what + "Group: " + GroupKey(pClass, pLevel) + "/" + groupLabel + "\n")];
    var all := langList.GetLangs();
    var translations: seq<Line> := [];
    if language == Some("C") && what == "Open" {
      translations := TranslateGroup(all, load, pClass, pLevel);
    }
    lines := lines + translations + [Plain("\n")];
  }

  /** `print_group_open` (genppd.c:1527-1535): a group opened in the PPD's language, "C" when it has none. */
  method PrintGroupOpen(pClass: nat, pLevel: nat, language: Option<string>, po: Catalog,
                        langList: LanguageList, load: string -> Option<Catalog>) returns (lines: seq<Line>)
    requires pClass < |ClassNames| && pLevel < |LevelNames|
    requires CCatalog(po) && CatalogsC(load)
    requires langList.Valid()
    modifies langList
    ensures langList.Valid() && langList.langs == Some(SplitAt(langList.allLinguas, ' '))
    ensures lines == GroupLines("Open", pClass, pLevel, Some(if language.Some? then language.value else "C"), po,
                                SplitAt(langList.allLinguas, ' '), load)
  {
    lines := PrintGroup("Open", pClass, pLevel, Some(if language.Some? then language.value else "C"), po, langList, load);
  }

  /** `print_group_close` (genppd.c:1511-1519): the group closed with neither language nor catalog. */
  method PrintGroupClose(pClass: nat, pLevel: nat, langList: LanguageList, load: string -> Option<Catalog>)
    returns (lines: seq<Line>)
    requires pClass < |ClassNames| && pLevel < |LevelNames|
    requires CatalogsC(load)
    requires langList.Valid()
    modifies langList
    ensures langList.Valid() && langList.langs == Some(SplitAt(langList.allLinguas, ' '))
    ensures lines == GroupLines("Close", pClass, pLevel, None, map[], SplitAt(langList.allLinguas, ' '), load)
  {
    lines := PrintGroup("Close", pClass, pLevel, None, map[], langList, load);
  }
}
