/** The fixed sections `write_ppd` writes around the generic options: media type, input
    slot, quality, output order, duplex, shrink-to-fit, the image-type presets and the UI
    constraints; and what the localization pass writes for each of them. */
module Sections {
  import opened Text
  import opened Ppd
  import opened Options
  import opened Resolution

  // ----- Common pieces -----

  function ColorKeyWords(isColor: bool, key: string): seq<Line>
  {
    if isColor then [Plain("*ColorKeyWords: \"" + key + "\"\n")] else []
  }

  function OpenUI(key: string, title: string): Line
  {
    Choice(false, "OpenUI", "*" + key, title, " PickOne")
  }

  function OrderDependency(key: string): Line
  {
    Plain("*OrderDependency: 10 AnySetup *" + key + "\n")
  }

  /** A section's head, the colour key word, the OpenUI line and three plain lines, declares
      nothing under the section's own keyword and maps nothing. */
  lemma HeadDeclaresNothing(isColor: bool, key: string, open: Line, h: Line, o: Line, f: Line, kw: string)
    requires open.Choice? && open.keyword == "OpenUI" && kw != "OpenUI"
    requires h.Plain? && o.Plain? && f.Plain?
    ensures Declarations(ColorKeyWords(isColor, key) + [open, h, o, f], kw) == []
    ensures Mappings(ColorKeyWords(isColor, key) + [open, h, o, f]) == []
  {
    var ls := ColorKeyWords(isColor, key) + [open, h, o, f];
    assert forall k :: 0 <= k < |ls| ==> ls[k].Plain? || ls[k] == open;
    DeclarationsNone(ls, kw);
    MappingsNone(ls);
  }

  /** The two default lines declare and map nothing. */
  lemma DefaultsDeclareNothing(key: string, v: string, kw: string)
    ensures Declarations(Defaults(key, v), kw) == []
    ensures Mappings(Defaults(key, v)) == []
  {
    DeclarationsNone(Defaults(key, v), kw);
    MappingsNone(Defaults(key, v));
  }

  function TranslationTitle(lang: string, key: string, title: string): Line
  {
    Localized(lang, "Translation", key, title)
  }

  /** A string-list parameter that is active and has at least one entry. */
  predicate Offered(d: ParamDesc)
  {
    d.bounds.ListBounds? && d.isActive && |d.bounds.choices| > 0
  }

  /** Choice lines carrying a code made from the entry's name; an entry other than the
      default is marked ignorable when `masked`. */
  function CodedChoices(po: Catalog, kw: string, masked: bool, deflt: string, cs: seq<StringOpt>, code: string -> string): (ls: seq<Line>)
    ensures |ls| == |cs|
  {
    if |cs| == 0 then []
    else [CodedChoice(po, kw, masked, deflt, cs[0], code)] + CodedChoices(po, kw, masked, deflt, cs[1..], code)
  }

  /** The line of one entry: ignorable when masking is on and it is not the default. */
  function CodedChoice(po: Catalog, kw: string, masked: bool, deflt: string, opt: StringOpt, code: string -> string): Line
  {
    Choice(masked && opt.name != deflt, kw, opt.name, Tr(po, opt.text), code(opt.name))
  }

  /** Every entry is declared under `kw`, in order. */
  lemma {:induction false} CodedChoicesDeclare(po: Catalog, kw: string, masked: bool, deflt: string, cs: seq<StringOpt>, code: string -> string)
    ensures Declarations(CodedChoices(po, kw, masked, deflt, cs, code), kw) == OptNames(cs)
    decreases |cs|
  {
    if |cs| > 0 {
      var ls := CodedChoices(po, kw, masked, deflt, cs, code);
      assert ls[1..] == CodedChoices(po, kw, masked, deflt, cs[1..], code);
      CodedChoicesDeclare(po, kw, masked, deflt, cs[1..], code);
    }
  }

  /** The k-th line is the k-th entry; it is marked ignorable exactly when masking is on and
      the entry is not the default. */
  lemma {:induction false} CodedChoiceAt(po: Catalog, kw: string, masked: bool, deflt: string, cs: seq<StringOpt>, code: string -> string, k: nat)
    requires k < |cs|
    ensures var l := CodedChoices(po, kw, masked, deflt, cs, code)[k];
      && l.Choice? && l.keyword == kw && l.option == cs[k].name && l.display == Tr(po, cs[k].text)
      && l.code == code(cs[k].name)
      && (l.query <==> masked && cs[k].name != deflt)
    decreases k
  {
    if k > 0 {
      CodedChoiceAt(po, kw, masked, deflt, cs[1..], code, k - 1);
    }
  }

  /** The loop over the entries of a list with per-entry codes. */
  method EnumerateCoded(po: Catalog, kw: string, masked: bool, deflt: string, cs: seq<StringOpt>, code: string -> string)
    returns (lines: seq<Line>)
    ensures lines == CodedChoices(po, kw, masked, deflt, cs, code)
  {
    lines := [];
    var i := 0;
    while i < |cs|
      invariant i <= |cs|
      invariant lines + CodedChoices(po, kw, masked, deflt, cs[i..], code) == CodedChoices(po, kw, masked, deflt, cs, code)
    {
      assert cs[i..][1..] == cs[i + 1..];
      ghost var rest := CodedChoices(po, kw, masked, deflt, cs[i + 1..], code);
      var line := CodedChoice(po, kw, masked, deflt, cs[i], code);
      AppendAssoc(lines, [line], rest);
      lines := lines + [line];
      i := i + 1;
    }
  }

  /** A translation line per entry, translated with the catalog of the language. */
  method LocalizeEntries(po: Catalog, lang: string, kw: string, cs: seq<StringOpt>) returns (lines: seq<Line>)
    ensures lines == LocChoices(po, lang, kw, cs)
  {
    lines := LocalizeList(po, lang, kw, cs);
  }

  /** Translation lines under `kw` translate nothing under another keyword. */
  lemma {:induction false} LocChoicesElsewhere(po: Catalog, lang: string, kw: string, cs: seq<StringOpt>, other: string)
    requires other != kw
    ensures Translations(LocChoices(po, lang, kw, cs), lang, other) == []
    decreases |cs|
  {
    if |cs| > 0 {
      var ls := LocChoices(po, lang, kw, cs);
      assert ls[1..] == LocChoices(po, lang, kw, cs[1..]);
      LocChoicesElsewhere(po, lang, kw, cs[1..], other);
    }
  }

  lemma {:induction false} LocChoicesTranslate(po: Catalog, lang: string, kw: string, cs: seq<StringOpt>)
    ensures Translations(LocChoices(po, lang, kw, cs), lang, kw) == OptNames(cs)
    decreases |cs|
  {
    if |cs| > 0 {
      var ls := LocChoices(po, lang, kw, cs);
      assert ls[1..] == LocChoices(po, lang, kw, cs[1..]);
      LocChoicesTranslate(po, lang, kw, cs[1..]);
    }
  }

  // ----- MediaType and InputSlot -----

  function MediaTypeCode(name: string): string { "\t\"<</MediaType(" + name + ")>>setpagedevice\"" }
  function InputSlotCode(name: string): string { "\t\"<</MediaClass(" + name + ")>>setpagedevice\"" }

  /** MediaType and InputSlot share one layout: a dropdown of the driver's entries, each
      selected by its setpagedevice code; in the no-colour-options PPD a colour parameter
      marks every entry but the default ignorable. */
  function PickOneLines(key: string, title: string, t: PpdType, po: Catalog, d: ParamDesc, code: string -> string): seq<Line>
    requires d.bounds.ListBounds?
  {
    ColorKeyWords(d.isColor, key)
    + [OpenUI(key, Tr(po, title)), Hint(key, "dropdown"), OrderDependency(key), Fields(d, 0, 0, 0)]
    + Defaults(key, d.bounds.deflt)
    + CodedChoices(po, key, SkipColor(t, d), d.bounds.deflt, d.bounds.choices, code)
    + [CloseUI(key)]
  }

  function PickOneSection(key: string, title: string, t: PpdType, po: Catalog, d: ParamDesc, code: string -> string): seq<Line>
  {
    if Offered(d) then PickOneLines(key, title, t, po, d, code) else []
  }

  function MediaTypeSection(t: PpdType, po: Catalog, d: ParamDesc): seq<Line>
  {
    PickOneSection("MediaType", "Media Type", t, po, d, MediaTypeCode)
  }

  function InputSlotSection(t: PpdType, po: Catalog, d: ParamDesc): seq<Line>
  {
    PickOneSection("InputSlot", "Media Source", t, po, d, InputSlotCode)
  }

  method PrintPickOne(key: string, title: string, t: PpdType, po: Catalog, d: ParamDesc, code: string -> string)
    returns (lines: seq<Line>)
    ensures lines == PickOneSection(key, title, t, po, d, code)
  {
    lines := [];
    if d.bounds.ListBounds? && d.isActive && |d.bounds.choices| > 0 {
      var nocolor := t == NoColorOpts && d.isColor;
      var colorLines: seq<Line> := [];
      if d.isColor {
        colorLines := [Plain("*ColorKeyWords: \"" + key + "\"\n")];
      }
      var head := colorLines + [OpenUI(key, Tr(po, title)), Hint(key, "dropdown"), OrderDependency(key), Fields(d, 0, 0, 0)]
        + Defaults(key, d.bounds.deflt);
      var body := EnumerateCoded(po, key, nocolor, d.bounds.deflt, d.bounds.choices, code);
      lines := head + body + [CloseUI(key)];
    }
  }

  function LocPickOne(key: string, title: string, po: Catalog, lang: string, d: ParamDesc): seq<Line>
  {
    if Offered(d) then [TranslationTitle(lang, key, Tr(po, title))] + LocChoices(po, lang, key, d.bounds.choices) else []
  }

  method LocalizePickOne(key: string, title: string, po: Catalog, lang: string, d: ParamDesc) returns (lines: seq<Line>)
    ensures lines == LocPickOne(key, title, po, lang, d)
  {
    lines := [];
    if d.bounds.ListBounds? && d.isActive && |d.bounds.choices| > 0 {
      var body := LocalizeEntries(po, lang, key, d.bounds.choices);
      lines := [TranslationTitle(lang, key, Tr(po, title))] + body;
    }
  }

  /** The main keyword lines of MediaType or InputSlot declare exactly the driver's entries,
      and the localization pass translates exactly those entries. */
  lemma PickOneParity(key: string, title: string, t: PpdType, po: Catalog, lpo: Catalog, lang: string, d: ParamDesc, code: string -> string)
    requires key == "MediaType" || key == "InputSlot"
    ensures Offered(d) ==> Declarations(PickOneSection(key, title, t, po, d, code), key) == OptNames(d.bounds.choices)
    ensures Translations(LocPickOne(key, title, lpo, lang, d), lang, key) == Declarations(PickOneSection(key, title, t, po, d, code), key)
  {
    if Offered(d) {
      var head := ColorKeyWords(d.isColor, key)
        + [OpenUI(key, Tr(po, title)), Hint(key, "dropdown"), OrderDependency(key), Fields(d, 0, 0, 0)]
        + Defaults(key, d.bounds.deflt);
      var body := CodedChoices(po, key, SkipColor(t, d), d.bounds.deflt, d.bounds.choices, code);
      assert PickOneSection(key, title, t, po, d, code) == head + body + [CloseUI(key)];
      DeclarationsNone(head, key);
      DeclarationsNone([CloseUI(key)], key);
      CodedChoicesDeclare(po, key, SkipColor(t, d), d.bounds.deflt, d.bounds.choices, code);
      Declarations3(head, body, [CloseUI(key)], key);
      var title' := TranslationTitle(lang, key, Tr(lpo, title));
      TranslationsNone([title'], lang, key);
      LocChoicesTranslate(lpo, lang, key, d.bounds.choices);
      TranslationsAppend([title'], LocChoices(lpo, lang, key, d.bounds.choices), lang, key);
    }
  }

  // ----- Quality -----

  /** What the driver reports for a selected value (`stp_describe_resolution`): the
      resolution of each Quality and of each Resolution value, -1 on an axis it cannot tell. */
  datatype Driver = Driver(qualityDpi: string -> Dpi, resolutionDpi: string -> Dpi)

  /** The Quality section is written for an active string list, even an empty one. */
  predicate QualityOffered(d: ParamDesc)
  {
    d.bounds.ListBounds? && d.isActive
  }

  /** The resolution a quality value selects; where the driver cannot tell, the resolution of
      the Resolution parameter's default `resDefault`. */
  function QualityDpi(drv: Driver, resDefault: string, name: string): (c: Dpi)
    ensures drv.qualityDpi(name).x != -1 && drv.qualityDpi(name).y != -1 ==> c == drv.qualityDpi(name)
    ensures drv.qualityDpi(name).x == -1 || drv.qualityDpi(name).y == -1 ==> c == drv.resolutionDpi(resDefault)
  {
    var raw := drv.qualityDpi(name);
    if raw.x == -1 || raw.y == -1 then drv.resolutionDpi(resDefault) else raw
  }

  function HWResolution(c: Dpi): string
  {
    "<</HWResolution[" + IntToString(c.x) + " " + IntToString(c.y) + "]"
  }

  /** The code of the quality entry at position `i`: its resolution and row feed i + 1. */
  function QualityCode(c: Dpi, i: int): string
  {
    "\t\"" + HWResolution(c) + "/cupsRowFeed " + IntToString(i + 1) + ">>setpagedevice\""
  }

  function QualityChoice(po: Catalog, drv: Driver, resDefault: string, masked: bool, deflt: string, opt: StringOpt, i: int): Line
  {
    Choice(masked && opt.name != deflt, "StpQuality", opt.name, Tr(po, opt.text), QualityCode(QualityDpi(drv, resDefault, opt.name), i))
  }

  /** The quality entries, each with its position. */
  function QualityChoices(po: Catalog, drv: Driver, resDefault: string, masked: bool, deflt: string, cs: seq<StringOpt>): (ls: seq<Line>)
    ensures |ls| == |cs|
  {
    if |cs| == 0 then []
    else QualityChoices(po, drv, resDefault, masked, deflt, cs[..|cs| - 1]) + [QualityChoice(po, drv, resDefault, masked, deflt, cs[|cs| - 1], |cs| - 1)]
  }

  /** The "*StpStp" line of Quality; its class column carries the parameter's type code. */
  function QualityFields(d: ParamDesc): Line
  {
    StpStpLine(d.name, TypeCode(PType(d)), if d.isMandatory then 1 else 0, TypeCode(PType(d)), d.pLevel, d.channel, 0, 0, 0)
  }

  function QualityHint(n: nat): string
  {
    if n > 3 then "radiobuttons" else "dropdown"
  }

  function QualityHead(po: Catalog, d: ParamDesc): seq<Line>
    requires d.bounds.ListBounds?
  {
    ColorKeyWords(d.isColor, "Quality")
    + [OpenUI("StpQuality", Tr(po, d.text)), Hint("Quality", QualityHint(|d.bounds.choices|)), OrderDependency("StpQuality"), QualityFields(d)]
    + Defaults("StpQuality", d.bounds.deflt)
  }

  function QualitySection(t: PpdType, po: Catalog, drv: Driver, resDefault: string, d: ParamDesc): seq<Line>
  {
    if QualityOffered(d) then
      QualityHead(po, d)
      + QualityChoices(po, drv, resDefault, SkipColor(t, d), d.bounds.deflt, d.bounds.choices)
      + [CloseUI("StpQuality")]
    else []
  }

  lemma {:induction false} QualityChoicesDeclare(po: Catalog, drv: Driver, resDefault: string, masked: bool, deflt: string, cs: seq<StringOpt>)
    ensures Declarations(QualityChoices(po, drv, resDefault, masked, deflt, cs), "StpQuality") == OptNames(cs)
    decreases |cs|
  {
    if |cs| > 0 {
      QualityChoicesDeclare(po, drv, resDefault, masked, deflt, cs[..|cs| - 1]);
      QualityChoicesStep(po, drv, resDefault, masked, deflt, cs);
      OptNamesLast(cs);
    }
  }

  lemma QualityChoicesStep(po: Catalog, drv: Driver, resDefault: string, masked: bool, deflt: string, cs: seq<StringOpt>)
    requires |cs| > 0
    ensures Declarations(QualityChoices(po, drv, resDefault, masked, deflt, cs), "StpQuality")
         == Declarations(QualityChoices(po, drv, resDefault, masked, deflt, cs[..|cs| - 1]), "StpQuality") + [cs[|cs| - 1].name]
  {
    var q := QualityChoice(po, drv, resDefault, masked, deflt, cs[|cs| - 1], |cs| - 1);
    assert Declarations([q], "StpQuality") == [cs[|cs| - 1].name];
    DeclarationsAppend(QualityChoices(po, drv, resDefault, masked, deflt, cs[..|cs| - 1]), [q], "StpQuality");
  }

  /** The entry at position k selects its own resolution, or the Resolution default's when
      the driver cannot tell, and row feed k + 1. */
  lemma {:induction false} QualityChoiceAt(po: Catalog, drv: Driver, resDefault: string, masked: bool, deflt: string, cs: seq<StringOpt>, k: nat)
    requires k < |cs|
    ensures QualityChoices(po, drv, resDefault, masked, deflt, cs)[k] == QualityChoice(po, drv, resDefault, masked, deflt, cs[k], k)
    decreases |cs|
  {
    if k < |cs| - 1 {
      QualityChoiceAt(po, drv, resDefault, masked, deflt, cs[..|cs| - 1], k);
    }
  }

  method PrintQuality(t: PpdType, po: Catalog, drv: Driver, resDefault: string, d: ParamDesc) returns (lines: seq<Line>)
    ensures lines == QualitySection(t, po, drv, resDefault, d)
  {
    lines := [];
    if d.bounds.ListBounds? && d.isActive {
      var masked := t == NoColorOpts && d.isColor;
      var body := EnumerateQuality(po, drv, resDefault, masked, d.bounds.deflt, d.bounds.choices);
      lines := QualityHead(po, d) + body + [CloseUI("StpQuality")];
    }
  }

  /** The loop over the quality values. */
  method EnumerateQuality(po: Catalog, drv: Driver, resDefault: string, masked: bool, deflt: string, cs: seq<StringOpt>)
    returns (body: seq<Line>)
    ensures body == QualityChoices(po, drv, resDefault, masked, deflt, cs)
  {
    body := [];
    var i := 0;
    while i < |cs|
      invariant i <= |cs|
      invariant body == QualityChoices(po, drv, resDefault, masked, deflt, cs[..i])
    {
      assert cs[..i + 1][..i] == cs[..i];
      var line := PrintQualityChoice(po, drv, resDefault, masked, deflt, cs[i], i);
      body := body + [line];
      i := i + 1;
    }
    assert cs[..i] == cs;
  }

  /** One quality entry: its resolution, falling back to the Resolution default's. */
  method PrintQualityChoice(po: Catalog, drv: Driver, resDefault: string, masked: bool, deflt: string, opt: StringOpt, i: int)
    returns (line: Line)
    ensures line == QualityChoice(po, drv, resDefault, masked, deflt, opt, i)
  {
    var c := drv.qualityDpi(opt.name);
    if c.x == -1 || c.y == -1 {
      c := drv.resolutionDpi(resDefault);
    }
    var marked := masked && opt.name != deflt;
    line := Choice(marked, "StpQuality", opt.name, Tr(po, opt.text), QualityCode(c, i));
  }

  function LocQuality(po: Catalog, lang: string, d: ParamDesc): seq<Line>
  {
    if QualityOffered(d) then [TranslationTitle(lang, "StpQuality", Tr(po, d.text))] + LocChoices(po, lang, "StpQuality", d.bounds.choices)
    else []
  }

  method LocalizeQuality(po: Catalog, lang: string, d: ParamDesc) returns (lines: seq<Line>)
    ensures lines == LocQuality(po, lang, d)
  {
    lines := [];
    if d.bounds.ListBounds? && d.isActive {
      var body := LocalizeEntries(po, lang, "StpQuality", d.bounds.choices);
      lines := [TranslationTitle(lang, "StpQuality", Tr(po, d.text))] + body;
    }
  }

  lemma QualityHeadDeclaresNothing(po: Catalog, d: ParamDesc)
    requires d.bounds.ListBounds?
    ensures Declarations(QualityHead(po, d), "StpQuality") == []
  {
    var open := OpenUI("StpQuality", Tr(po, d.text));
    var four := [open, Hint("Quality", QualityHint(|d.bounds.choices|)), OrderDependency("StpQuality"), QualityFields(d)];
    assert "OpenUI" != "StpQuality" by { assert "OpenUI"[0] != "StpQuality"[0]; }
    HeadDeclaresNothing(d.isColor, "Quality", four[0], four[1], four[2], four[3], "StpQuality");
    DefaultsDeclareNothing("StpQuality", d.bounds.deflt, "StpQuality");
    DeclarationsAppend(ColorKeyWords(d.isColor, "Quality") + four, Defaults("StpQuality", d.bounds.deflt), "StpQuality");
  }

  /** Every quality value is declared, in order, and translated, in order. */
  lemma QualityParity(t: PpdType, po: Catalog, lpo: Catalog, drv: Driver, resDefault: string, lang: string, d: ParamDesc)
    ensures QualityOffered(d) ==> Declarations(QualitySection(t, po, drv, resDefault, d), "StpQuality") == OptNames(d.bounds.choices)
    ensures Translations(LocQuality(lpo, lang, d), lang, "StpQuality") == Declarations(QualitySection(t, po, drv, resDefault, d), "StpQuality")
  {
    if QualityOffered(d) {
      var head := QualityHead(po, d);
      var body := QualityChoices(po, drv, resDefault, SkipColor(t, d), d.bounds.deflt, d.bounds.choices);
      assert QualitySection(t, po, drv, resDefault, d) == head + body + [CloseUI("StpQuality")];
      QualityHeadDeclaresNothing(po, d);
      DeclarationsNone([CloseUI("StpQuality")], "StpQuality");
      QualityChoicesDeclare(po, drv, resDefault, SkipColor(t, d), d.bounds.deflt, d.bounds.choices);
      Declarations3(head, body, [CloseUI("StpQuality")], "StpQuality");
      var title := TranslationTitle(lang, "StpQuality", Tr(lpo, d.text));
      TranslationsNone([title], lang, "StpQuality");
      LocChoicesTranslate(lpo, lang, "StpQuality", d.bounds.choices);
      TranslationsAppend([title], LocChoices(lpo, lang, "StpQuality", d.bounds.choices), lang, "StpQuality");
    }
  }

  // ----- OutputOrder -----

  /** Written for any string-list OutputOrder, active or not: Normal and Reverse. */
  function OutputOrderSection(po: Catalog, d: ParamDesc): seq<Line>
  {
    if d.bounds.ListBounds? then
      [OpenUI("OutputOrder", Tr(po, "Output Order")), Hint("OutputOrder", "radiobuttons"), OrderDependency("OutputOrder")]
      + Defaults("OutputOrder", d.bounds.deflt)
      + [Choice(false, "OutputOrder", "Normal", Tr(po, "Normal"), NoCode),
         Choice(false, "OutputOrder", "Reverse", Tr(po, "Reverse"), NoCode),
         CloseUI("OutputOrder")]
    else []
  }

  function LocOutputOrder(po: Catalog, lang: string, d: ParamDesc): seq<Line>
  {
    if d.bounds.ListBounds? then
      [TranslationTitle(lang, "OutputOrder", Tr(po, "Output Order")),
       Localized(lang, "OutputOrder", "Normal", Tr(po, "Normal")),
       Localized(lang, "OutputOrder", "Reverse", Tr(po, "Reverse"))]
    else []
  }

  /** OutputOrder declares Normal and Reverse, whatever the driver's default is, and both
      are translated. */
  lemma OutputOrderChoices(po: Catalog, lpo: Catalog, lang: string, d: ParamDesc)
    requires d.bounds.ListBounds?
    ensures Declarations(OutputOrderSection(po, d), "OutputOrder") == ["Normal", "Reverse"]
    ensures Translations(LocOutputOrder(lpo, lang, d), lang, "OutputOrder") == ["Normal", "Reverse"]
  {
    var head := [OpenUI("OutputOrder", Tr(po, "Output Order")), Hint("OutputOrder", "radiobuttons"), OrderDependency("OutputOrder")]
      + Defaults("OutputOrder", d.bounds.deflt);
    var tail := [Choice(false, "OutputOrder", "Normal", Tr(po, "Normal"), NoCode),
                 Choice(false, "OutputOrder", "Reverse", Tr(po, "Reverse"), NoCode),
                 CloseUI("OutputOrder")];
    assert "OpenUI" != "OutputOrder" by { assert |"OpenUI"| != |"OutputOrder"|; }
    assert "OutputOrder" != "Translation" by { assert "OutputOrder"[0] != "Translation"[0]; }
    assert forall k :: 0 <= k < |head| ==> head[k].Plain? || head[k].keyword == "OpenUI";
    DeclarationsNone(head, "OutputOrder");
    assert OutputOrderSection(po, d) == head + tail;
    DeclarationsAppend(head, tail, "OutputOrder");
    assert tail == [tail[0]] + [tail[1]] + [tail[2]];
    Declarations3([tail[0]], [tail[1]], [tail[2]], "OutputOrder");
    var loc := LocOutputOrder(lpo, lang, d);
    assert loc == [loc[0]] + [loc[1]] + [loc[2]];
    Translations3([loc[0]], [loc[1]], [loc[2]], lang, "OutputOrder");
  }

  // ----- Duplex -----

  /** The setpagedevice code of the three duplex modes the PPD knows; any other entry of the
      driver's list is not written. */
  function DuplexCode(name: string): Option<string>
  {
    if name == "None" then Some(" \"<</Duplex false>>setpagedevice\"")
    else if name == "DuplexNoTumble" then Some(" \"<</Duplex true/Tumble false>>setpagedevice\"")
    else if name == "DuplexTumble" then Some(" \"<</Duplex true/Tumble true>>setpagedevice\"")
    else None
  }

  predicate KnownDuplex(name: string)
  {
    name == "None" || name == "DuplexNoTumble" || name == "DuplexTumble"
  }

  /** The entries whose name is a known duplex mode, in order. */
  function KnownDuplexNames(cs: seq<StringOpt>): (ns: seq<string>)
    ensures forall n :: n in ns ==> KnownDuplex(n)
  {
    if |cs| == 0 then [] else (if KnownDuplex(cs[0].name) then [cs[0].name] else []) + KnownDuplexNames(cs[1..])
  }

  function DuplexChoice(po: Catalog, opt: StringOpt): seq<Line>
  {
    var code := DuplexCode(opt.name);
    if code.Some? then [Choice(false, "Duplex", opt.name, Tr(po, opt.text), code.value)] else []
  }

  function DuplexChoices(po: Catalog, cs: seq<StringOpt>): seq<Line>
  {
    if |cs| == 0 then [] else DuplexChoice(po, cs[0]) + DuplexChoices(po, cs[1..])
  }

  /** One duplex entry, by its name. */
  method PrintDuplexChoice(po: Catalog, opt: StringOpt) returns (ls: seq<Line>)
    ensures ls == DuplexChoice(po, opt)
  {
    ls := [];
    if opt.name == "None" {
      ls := [Choice(false, "Duplex", opt.name, Tr(po, opt.text), " \"<</Duplex false>>setpagedevice\"")];
    } else if opt.name == "DuplexNoTumble" {
      ls := [Choice(false, "Duplex", opt.name, Tr(po, opt.text), " \"<</Duplex true/Tumble false>>setpagedevice\"")];
    } else if opt.name == "DuplexTumble" {
      ls := [Choice(false, "Duplex", opt.name, Tr(po, opt.text), " \"<</Duplex true/Tumble true>>setpagedevice\"")];
    }
  }

  function DuplexHead(po: Catalog, d: ParamDesc): seq<Line>
    requires d.bounds.ListBounds?
  {
    ColorKeyWords(d.isColor, "InputSlot")
    + [OpenUI("Duplex", Tr(po, "2-Sided Printing")), Hint("Duplex", "radiobuttons"), OrderDependency("Duplex"), Fields(d, 0, 0, 0)]
    + Defaults("Duplex", d.bounds.deflt)
  }

  /** The colour key word of Duplex names InputSlot, as the code has it. */
  function DuplexSection(po: Catalog, d: ParamDesc): seq<Line>
  {
    if Offered(d) then DuplexHead(po, d) + DuplexChoices(po, d.bounds.choices) + [CloseUI("Duplex")] else []
  }

  method PrintDuplex(po: Catalog, d: ParamDesc) returns (lines: seq<Line>)
    ensures lines == DuplexSection(po, d)
  {
    lines := [];
    if d.bounds.ListBounds? && d.isActive && |d.bounds.choices| > 0 {
      var body := EnumerateDuplex(po, d.bounds.choices);
      lines := DuplexHead(po, d) + body + [CloseUI("Duplex")];
    }
  }

  method EnumerateDuplex(po: Catalog, cs: seq<StringOpt>) returns (body: seq<Line>)
    ensures body == DuplexChoices(po, cs)
  {
    body := [];
    var i := 0;
    while i < |cs|
      invariant i <= |cs|
      invariant body + DuplexChoices(po, cs[i..]) == DuplexChoices(po, cs)
    {
      assert cs[i..][1..] == cs[i + 1..];
      ghost var rest := DuplexChoices(po, cs[i + 1..]);
      var entry := PrintDuplexChoice(po, cs[i]);
      AppendAssoc(body, entry, rest);
      body := body + entry;
      i := i + 1;
    }
  }

  function LocDuplexChoice(po: Catalog, lang: string, opt: StringOpt): seq<Line>
  {
    if KnownDuplex(opt.name) then [Localized(lang, "Duplex", opt.name, Tr(po, opt.text))] else []
  }

  function LocDuplexChoices(po: Catalog, lang: string, cs: seq<StringOpt>): seq<Line>
  {
    if |cs| == 0 then [] else LocDuplexChoice(po, lang, cs[0]) + LocDuplexChoices(po, lang, cs[1..])
  }

  method LocalizeDuplexChoice(po: Catalog, lang: string, opt: StringOpt) returns (ls: seq<Line>)
    ensures ls == LocDuplexChoice(po, lang, opt)
  {
    ls := [];
    if opt.name == "None" || opt.name == "DuplexNoTumble" || opt.name == "DuplexTumble" {
      ls := [Localized(lang, "Duplex", opt.name, Tr(po, opt.text))];
    }
  }

  function LocDuplex(po: Catalog, lang: string, d: ParamDesc): seq<Line>
  {
    if Offered(d) then [TranslationTitle(lang, "Duplex", Tr(po, "2-Sided Printing"))] + LocDuplexChoices(po, lang, d.bounds.choices) else []
  }

  method LocalizeDuplex(po: Catalog, lang: string, d: ParamDesc) returns (lines: seq<Line>)
    ensures lines == LocDuplex(po, lang, d)
  {
    lines := [];
    if d.bounds.ListBounds? && d.isActive && |d.bounds.choices| > 0 {
      var body := LocalizeDuplexChoices(po, lang, d.bounds.choices);
      lines := [TranslationTitle(lang, "Duplex", Tr(po, "2-Sided Printing"))] + body;
    }
  }

  method LocalizeDuplexChoices(po: Catalog, lang: string, cs: seq<StringOpt>) returns (body: seq<Line>)
    ensures body == LocDuplexChoices(po, lang, cs)
  {
    body := [];
    var i := 0;
    while i < |cs|
      invariant i <= |cs|
      invariant body + LocDuplexChoices(po, lang, cs[i..]) == LocDuplexChoices(po, lang, cs)
    {
      assert cs[i..][1..] == cs[i + 1..];
      ghost var rest := LocDuplexChoices(po, lang, cs[i + 1..]);
      var entry := LocalizeDuplexChoice(po, lang, cs[i]);
      AppendAssoc(body, entry, rest);
      body := body + entry;
      i := i + 1;
    }
  }

  lemma {:induction false} DuplexChoicesDeclare(po: Catalog, cs: seq<StringOpt>)
    ensures Declarations(DuplexChoices(po, cs), "Duplex") == KnownDuplexNames(cs)
    decreases |cs|
  {
    if |cs| > 0 {
      DuplexChoicesDeclare(po, cs[1..]);
      DeclarationsAppend(DuplexChoice(po, cs[0]), DuplexChoices(po, cs[1..]), "Duplex");
    }
  }

  lemma {:induction false} LocDuplexTranslate(po: Catalog, lang: string, cs: seq<StringOpt>)
    ensures Translations(LocDuplexChoices(po, lang, cs), lang, "Duplex") == KnownDuplexNames(cs)
    decreases |cs|
  {
    if |cs| > 0 {
      LocDuplexTranslate(po, lang, cs[1..]);
      TranslationsAppend(LocDuplexChoice(po, lang, cs[0]), LocDuplexChoices(po, lang, cs[1..]), lang, "Duplex");
    }
  }

  lemma DuplexHeadDeclaresNothing(po: Catalog, d: ParamDesc)
    requires d.bounds.ListBounds?
    ensures Declarations(DuplexHead(po, d), "Duplex") == []
  {
    var four := [OpenUI("Duplex", Tr(po, "2-Sided Printing")), Hint("Duplex", "radiobuttons"), OrderDependency("Duplex"), Fields(d, 0, 0, 0)];
    assert "OpenUI" != "Duplex" by { assert "OpenUI"[0] != "Duplex"[0]; }
    HeadDeclaresNothing(d.isColor, "InputSlot", four[0], four[1], four[2], four[3], "Duplex");
    DefaultsDeclareNothing("Duplex", d.bounds.deflt, "Duplex");
    DeclarationsAppend(ColorKeyWords(d.isColor, "InputSlot") + four, Defaults("Duplex", d.bounds.deflt), "Duplex");
  }

  /** Duplex declares the driver's entries that are one of the three known modes, in order,
      and translates exactly those. */
  lemma DuplexParity(po: Catalog, lpo: Catalog, lang: string, d: ParamDesc)
    ensures Offered(d) ==> Declarations(DuplexSection(po, d), "Duplex") == KnownDuplexNames(d.bounds.choices)
    ensures Translations(LocDuplex(lpo, lang, d), lang, "Duplex") == Declarations(DuplexSection(po, d), "Duplex")
  {
    if Offered(d) {
      DuplexDeclares(po, d);
      DuplexTranslates(lpo, lang, d);
    }
  }

  lemma DuplexDeclares(po: Catalog, d: ParamDesc)
    requires Offered(d)
    ensures Declarations(DuplexSection(po, d), "Duplex") == KnownDuplexNames(d.bounds.choices)
  {
    var head := DuplexHead(po, d);
    assert DuplexSection(po, d) == head + DuplexChoices(po, d.bounds.choices) + [CloseUI("Duplex")];
    DuplexHeadDeclaresNothing(po, d);
    DeclarationsNone([CloseUI("Duplex")], "Duplex");
    DuplexChoicesDeclare(po, d.bounds.choices);
    Declarations3(head, DuplexChoices(po, d.bounds.choices), [CloseUI("Duplex")], "Duplex");
  }

  lemma DuplexTranslates(lpo: Catalog, lang: string, d: ParamDesc)
    requires Offered(d)
    ensures Translations(LocDuplex(lpo, lang, d), lang, "Duplex") == KnownDuplexNames(d.bounds.choices)
  {
    var title := TranslationTitle(lang, "Duplex", Tr(lpo, "2-Sided Printing"));
    TranslationsNone([title], lang, "Duplex");
    LocDuplexTranslate(lpo, lang, d.bounds.choices);
    TranslationsAppend([title], LocDuplexChoices(lpo, lang, d.bounds.choices), lang, "Duplex");
  }

  // ----- StpiShrinkOutput -----

  const ShrinkModes: seq<StringOpt> := [
    StringOpt("Shrink", "Shrink (print the whole page)"),
    StringOpt("Crop", "Crop (preserve dimensions)"),
    StringOpt("Expand", "Expand (use maximum page area)")]

  function NoCodeFor(name: string): string { NoCode }

  /** The shrink-to-fit option every PPD carries, defaulting to Shrink. */
  function ShrinkSection(po: Catalog): seq<Line>
  {
    [OpenUI("StpiShrinkOutput", Tr(po, "Shrink Page If Necessary to Fit Borders")), Hint("StpiShrinkOutput", "radiobuttons"),
     OrderDependency("StpiShrinkOutput")]
    + Defaults("StpiShrinkOutput", "Shrink")
    + CodedChoices(po, "StpiShrinkOutput", false, "Shrink", ShrinkModes, NoCodeFor)
    + [CloseUI("StpiShrinkOutput")]
  }

  function LocShrink(po: Catalog, lang: string): seq<Line>
  {
    [TranslationTitle(lang, "StpiShrinkOutput", Tr(po, "Shrink Page If Necessary to Fit Borders"))]
    + LocChoices(po, lang, "StpiShrinkOutput", ShrinkModes)
  }

  /** The three modes are declared and translated, and the default is one of them. */
  lemma ShrinkChoices(po: Catalog, lpo: Catalog, lang: string)
    ensures Declarations(ShrinkSection(po), "StpiShrinkOutput") == ["Shrink", "Crop", "Expand"]
    ensures Translations(LocShrink(lpo, lang), lang, "StpiShrinkOutput") == ["Shrink", "Crop", "Expand"]
  {
    var head := [OpenUI("StpiShrinkOutput", Tr(po, "Shrink Page If Necessary to Fit Borders")), Hint("StpiShrinkOutput", "radiobuttons"),
      OrderDependency("StpiShrinkOutput")] + Defaults("StpiShrinkOutput", "Shrink");
    var body := CodedChoices(po, "StpiShrinkOutput", false, "Shrink", ShrinkModes, NoCodeFor);
    DeclarationsNone(head, "StpiShrinkOutput");
    DeclarationsNone([CloseUI("StpiShrinkOutput")], "StpiShrinkOutput");
    CodedChoicesDeclare(po, "StpiShrinkOutput", false, "Shrink", ShrinkModes, NoCodeFor);
    Declarations3(head, body, [CloseUI("StpiShrinkOutput")], "StpiShrinkOutput");
    assert OptNames(ShrinkModes) == ["Shrink", "Crop", "Expand"];
    var title := TranslationTitle(lang, "StpiShrinkOutput", Tr(lpo, "Shrink Page If Necessary to Fit Borders"));
    TranslationsNone([title], lang, "StpiShrinkOutput");
    LocChoicesTranslate(lpo, lang, "StpiShrinkOutput", ShrinkModes);
    TranslationsAppend([title], LocChoices(lpo, lang, "StpiShrinkOutput", ShrinkModes), lang, "StpiShrinkOutput");
  }

  // ----- ImageType presets -----

  /** One "APPrinterPreset" per image type other than "None"; the localization pass writes
      them under "<lang>.APPrinterPreset" with the untranslated text, which the empty
      catalog gives. */
  function Presets(kw: string, po: Catalog, cs: seq<StringOpt>): seq<Line>
  {
    if |cs| == 0 then []
    else
      (if cs[0].name != "None" then [Choice(false, kw, cs[0].name, Tr(po, cs[0].text), " \"*StpImageType " + cs[0].name + "\"")] else [])
      + Presets(kw, po, cs[1..])
  }

  /** The entries other than "None", in order. */
  function PresetNames(cs: seq<StringOpt>): (ns: seq<string>)
    ensures "None" !in ns
  {
    if |cs| == 0 then [] else (if cs[0].name != "None" then [cs[0].name] else []) + PresetNames(cs[1..])
  }

  function ImageTypeSection(po: Catalog, d: ParamDesc): seq<Line>
  {
    if Offered(d) then Presets("APPrinterPreset", po, d.bounds.choices) + [Plain("\n")] else []
  }

  function LocImageType(lang: string, d: ParamDesc): seq<Line>
  {
    if Offered(d) then Presets(lang + ".APPrinterPreset", map[], d.bounds.choices) else []
  }

  method PrintPresets(kw: string, po: Catalog, cs: seq<StringOpt>) returns (lines: seq<Line>)
    ensures lines == Presets(kw, po, cs)
  {
    lines := [];
    var i := 0;
    while i < |cs|
      invariant i <= |cs|
      invariant lines + Presets(kw, po, cs[i..]) == Presets(kw, po, cs)
    {
      assert cs[i..][1..] == cs[i + 1..];
      var opt := cs[i];
      ghost var rest := Presets(kw, po, cs[i + 1..]);
      if opt.name != "None" {
        var line := Choice(false, kw, opt.name, Tr(po, opt.text), " \"*StpImageType " + opt.name + "\"");
        AppendAssoc(lines, [line], rest);
        lines := lines + [line];
      }
      i := i + 1;
    }
  }

  method PrintImageType(po: Catalog, d: ParamDesc) returns (lines: seq<Line>)
    ensures lines == ImageTypeSection(po, d)
  {
    lines := [];
    if d.isActive && d.bounds.ListBounds? && |d.bounds.choices| > 0 {
      var presets := PrintPresets("APPrinterPreset", po, d.bounds.choices);
      lines := presets + [Plain("\n")];
    }
  }

  method LocalizeImageType(lang: string, d: ParamDesc) returns (lines: seq<Line>)
    ensures lines == LocImageType(lang, d)
  {
    lines := [];
    if d.isActive && d.bounds.ListBounds? && |d.bounds.choices| > 0 {
      lines := PrintPresets(lang + ".APPrinterPreset", map[], d.bounds.choices);
    }
  }

  lemma {:induction false} PresetsDeclare(kw: string, po: Catalog, cs: seq<StringOpt>)
    ensures Declarations(Presets(kw, po, cs), kw) == PresetNames(cs)
    decreases |cs|
  {
    if |cs| > 0 {
      var first := if cs[0].name != "None" then [Choice(false, kw, cs[0].name, Tr(po, cs[0].text), " \"*StpImageType " + cs[0].name + "\"")] else [];
      PresetsDeclare(kw, po, cs[1..]);
      DeclarationsAppend(first, Presets(kw, po, cs[1..]), kw);
    }
  }

  /** Each image type other than "None" becomes a preset, in both the main and the
      localized lines, and "None" never does. */
  lemma ImageTypePresets(po: Catalog, lang: string, d: ParamDesc)
    requires Offered(d)
    ensures Declarations(ImageTypeSection(po, d), "APPrinterPreset") == PresetNames(d.bounds.choices)
    ensures Declarations(LocImageType(lang, d), lang + ".APPrinterPreset") == PresetNames(d.bounds.choices)
  {
    PresetsDeclare("APPrinterPreset", po, d.bounds.choices);
    DeclarationsNone([Plain("\n")], "APPrinterPreset");
    DeclarationsAppend(Presets("APPrinterPreset", po, d.bounds.choices), [Plain("\n")], "APPrinterPreset");
    PresetsDeclare(lang + ".APPrinterPreset", map[], d.bounds.choices);
  }

  // ----- UI constraints -----

  function ConstraintLine(name: string, first: string, second: string): Line
  {
    Plain("*" + name + ": " + first + " " + second + "\n")
  }

  /** One entry of PPDUIConstraints, as written: its text is cut at its last '*', the
      character before the '*' is overwritten with the terminator, and the two halves are
      written in both orders under the entry's name. A text with no '*' writes nothing; a
      text whose last '*' is its first character overwrites the byte before the copy, which
      is `None` here. */
  function ConstraintAsWritten(opt: StringOpt): Option<seq<Line>>
  {
    match LastIndexOf(opt.text, '*')
    case None => Some([])
    case Some(k) =>
      if k == 0 then None
      else Some([ConstraintLine(opt.name, opt.text[..k - 1], opt.text[k..]), ConstraintLine(opt.name, opt.text[k..], opt.text[..k - 1])])
  }

  /** A text such as "*Duplex" makes the as-written code write before its buffer. */
  lemma ConstraintUnderrun()
    ensures ConstraintAsWritten(StringOpt("UIConstraints", "*Duplex")).None?
  {
    var s := "*Duplex";
    var r := LastIndexOf(s, '*');
    assert r.Some?;
    assert forall i :: 1 <= i < |s| ==> s[i] != '*';
    assert r.value == 0;
  }

  /** One constraint as intended: a text whose only '*' opens it names no second option and
      writes nothing. */
  function Constraint(opt: StringOpt): seq<Line>
  {
    match LastIndexOf(opt.text, '*')
    case None => []
    case Some(k) =>
      if k == 0 then []
      else [ConstraintLine(opt.name, opt.text[..k - 1], opt.text[k..]), ConstraintLine(opt.name, opt.text[k..], opt.text[..k - 1])]
  }

  /** Where the code is defined it agrees with the corrected form. */
  lemma ConstraintAgrees(opt: StringOpt)
    ensures ConstraintAsWritten(opt).Some? ==> ConstraintAsWritten(opt).value == Constraint(opt)
    ensures ConstraintAsWritten(opt).None? <==> LastIndexOf(opt.text, '*') == Some(0)
  {
  }

  /** A constraint writes two lines or none; two exactly when the text has a '*' after its
      first character. Then the second half is the text from its last '*' on, the first half
      the text before the character preceding it, and the second line swaps the halves. */
  lemma ConstraintShape(opt: StringOpt)
    ensures |Constraint(opt)| == 0 || |Constraint(opt)| == 2
    ensures |Constraint(opt)| == 2 <==> exists i :: 0 < i < |opt.text| && opt.text[i] == '*'
    ensures |Constraint(opt)| == 2 ==>
      var k := LastIndexOf(opt.text, '*').value;
      var first, second := opt.text[..k - 1], opt.text[k..];
      && opt.text == first + [opt.text[k - 1]] + second
      && second[0] == '*' && '*' !in second[1..]
      && Constraint(opt) == [ConstraintLine(opt.name, first, second), ConstraintLine(opt.name, second, first)]
  {
    ConstraintCount(opt);
    ConstraintHalves(opt);
  }

  lemma ConstraintCount(opt: StringOpt)
    ensures |Constraint(opt)| == 0 || |Constraint(opt)| == 2
    ensures |Constraint(opt)| == 2 <==> exists i :: 0 < i < |opt.text| && opt.text[i] == '*'
  {
    var r := LastIndexOf(opt.text, '*');
    if r == Some(0) {
      OnlyLeadingStar(opt.text);
    } else if r.Some? {
      assert opt.text[r.value] == '*';
    }
  }

  /** A text whose last star is its first character has no other star. */
  lemma OnlyLeadingStar(s: string)
    requires LastIndexOf(s, '*') == Some(0)
    ensures forall i :: 0 < i < |s| ==> s[i] != '*'
  {
    forall i | 0 < i < |s|
      ensures s[i] != '*'
    {
      assert s[i] == s[1..][i - 1];
    }
  }

  lemma ConstraintHalves(opt: StringOpt)
    ensures |Constraint(opt)| == 2 ==>
      var k := LastIndexOf(opt.text, '*').value;
      var first, second := opt.text[..k - 1], opt.text[k..];
      && opt.text == first + [opt.text[k - 1]] + second
      && second[0] == '*' && '*' !in second[1..]
      && Constraint(opt) == [ConstraintLine(opt.name, first, second), ConstraintLine(opt.name, second, first)]
  {
    var r := LastIndexOf(opt.text, '*');
    if r.Some? && r.value > 0 {
      var k := r.value;
      assert opt.text == opt.text[..k - 1] + [opt.text[k - 1]] + opt.text[k..];
      assert opt.text[k..][1..] == opt.text[k + 1..];
    }
  }

  function Constraints(cs: seq<StringOpt>): seq<Line>
  {
    if |cs| == 0 then [] else Constraint(cs[0]) + Constraints(cs[1..])
  }

  function ConstraintSection(d: ParamDesc): seq<Line>
  {
    if Offered(d) then [Plain("*% ===== Constraints ===== \n")] + Constraints(d.bounds.choices) + [Plain("\n")] else []
  }

  /** The PPDUIConstraints section (genppd.c:2436-2461), corrected: an entry whose only '*'
      opens its text writes nothing (`ConstraintAsWritten` is the code as written). */
  method PrintConstraints(d: ParamDesc) returns (lines: seq<Line>)
    ensures lines == ConstraintSection(d)
  {
    lines := [];
    if d.isActive && d.bounds.ListBounds? && |d.bounds.choices| > 0 {
      var body := EnumerateConstraints(d.bounds.choices);
      lines := [Plain("*% ===== Constraints ===== \n")] + body + [Plain("\n")];
    }
  }

  method EnumerateConstraints(cs: seq<StringOpt>) returns (body: seq<Line>)
    ensures body == Constraints(cs)
  {
    body := [];
    var i := 0;
    while i < |cs|
      invariant i <= |cs|
      invariant body + Constraints(cs[i..]) == Constraints(cs)
    {
      assert cs[i..][1..] == cs[i + 1..];
      ghost var rest := Constraints(cs[i + 1..]);
      assert Constraints(cs[i..]) == Constraint(cs[i]) + rest;
      var pair := PrintConstraint(cs[i]);
      AppendAssoc(body, pair, rest);
      body := body + pair;
      i := i + 1;
    }
  }

  /** One constraint: `strrchr`, then the two lines. */
  method PrintConstraint(opt: StringOpt) returns (ls: seq<Line>)
    ensures ls == Constraint(opt)
  {
    ls := [];
    var star := LastIndexOf(opt.text, '*');
    if star.Some? && star.value > 0 {
      var k := star.value;
      var first, second := opt.text[..k - 1], opt.text[k..];
      ls := [ConstraintLine(opt.name, first, second), ConstraintLine(opt.name, second, first)];
    }
  }

  /** The entries that write a pair, in order. */
  function Pairing(cs: seq<StringOpt>): nat
  {
    if |cs| == 0 then 0 else (if |Constraint(cs[0])| == 2 then 1 else 0) + Pairing(cs[1..])
  }

  /** The section holds two lines per constraint with a second option, besides its title
      and closing blank line. */
  lemma {:induction false} ConstraintsCount(cs: seq<StringOpt>)
    ensures |Constraints(cs)| == 2 * Pairing(cs)
    decreases |cs|
  {
    if |cs| > 0 {
      ConstraintShape(cs[0]);
      ConstraintsCount(cs[1..]);
    }
  }

  // ----- Colour model translations -----

  function ColorModelBase(po: Catalog, lang: string): seq<Line>
  {
    [TranslationTitle(lang, "ColorModel", Tr(po, "Color Model")),
     Localized(lang, "ColorModel", "Gray", Tr(po, "Grayscale")),
     Localized(lang, "ColorModel", "Black", Tr(po, "Inverted Grayscale"))]
  }

  function ColorSpaces(po: Catalog, lang: string): seq<Line>
  {
    [Localized(lang, "ColorModel", "RGB", Tr(po, "RGB Color")),
     Localized(lang, "ColorModel", "CMY", Tr(po, "CMY Color")),
     Localized(lang, "ColorModel", "CMYK", Tr(po, "CMYK")),
     Localized(lang, "ColorModel", "KCMY", Tr(po, "KCMY"))]
  }

  function ColorPrecision(po: Catalog, lang: string): seq<Line>
  {
    [TranslationTitle(lang, "StpColorPrecision", Tr(po, "Color Precision")),
     Localized(lang, "StpColorPrecision", "Normal", Tr(po, "Normal")),
     Localized(lang, "StpColorPrecision", "Best", Tr(po, "Best"))]
  }

  /** The translations of the colour-model choices `print_color_setup` writes: the colour
      spaces only for a colour printer, the precision only outside the simplified PPD. */
  function LocColorModel(po: Catalog, lang: string, printerIsColor: bool, simplified: bool): seq<Line>
  {
    ColorModelBase(po, lang) + (if printerIsColor then ColorSpaces(po, lang) else []) + (if !simplified then ColorPrecision(po, lang) else [])
  }

  lemma ColorModelBaseNames(po: Catalog, lang: string)
    ensures Translations(ColorModelBase(po, lang), lang, "ColorModel") == ["Gray", "Black"]
  {
    var a := ColorModelBase(po, lang);
    assert "Translation" != "ColorModel" by { assert "Translation"[0] != "ColorModel"[0]; }
    assert a == [a[0]] + [a[1]] + [a[2]];
    Translations3([a[0]], [a[1]], [a[2]], lang, "ColorModel");
  }

  lemma ColorSpacesNames(po: Catalog, lang: string)
    ensures Translations(ColorSpaces(po, lang), lang, "ColorModel") == ["RGB", "CMY", "CMYK", "KCMY"]
  {
    var b := ColorSpaces(po, lang);
    assert b == [b[0]] + [b[1]] + [b[2]] + [b[3]];
    Translations3([b[0]], [b[1]], [b[2]], lang, "ColorModel");
    TranslationsAppend([b[0]] + [b[1]] + [b[2]], [b[3]], lang, "ColorModel");
  }

  lemma ColorPrecisionNames(po: Catalog, lang: string)
    ensures Translations(ColorPrecision(po, lang), lang, "ColorModel") == []
  {
    var c := ColorPrecision(po, lang);
    assert "StpColorPrecision" != "ColorModel" by { assert "StpColorPrecision"[0] != "ColorModel"[0]; }
    assert "Translation" != "ColorModel" by { assert "Translation"[0] != "ColorModel"[0]; }
    assert forall k :: 0 <= k < |c| ==> c[k].keyword != "ColorModel";
    TranslationsNone(c, lang, "ColorModel");
  }

  /** The colour spaces translated are Gray and Black, and the four colour ones exactly for
      a colour printer. */
  lemma ColorModelTranslations(po: Catalog, lang: string, printerIsColor: bool, simplified: bool)
    ensures Translations(LocColorModel(po, lang, printerIsColor, simplified), lang, "ColorModel")
      == ["Gray", "Black"] + (if printerIsColor then ["RGB", "CMY", "CMYK", "KCMY"] else [])
  {
    ColorModelBaseNames(po, lang);
    ColorSpacesNames(po, lang);
    ColorPrecisionNames(po, lang);
    Translations3(ColorModelBase(po, lang), if printerIsColor then ColorSpaces(po, lang) else [],
      if !simplified then ColorPrecision(po, lang) else [], lang, "ColorModel");
  }
}
