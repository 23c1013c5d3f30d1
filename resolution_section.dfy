/** The Resolution section of the main pass (genppd.c:2175-2326) and its localized counterpart
    (genppd.c:2612-2628).  Every driver resolution becomes one choice, named from its pair clamped
    to the safe ceilings and moved along the search of the Resolution module until the name is free;
    the names chosen are kept in the `resolutions` list, which the localization pass reads back. */
module Resolutions {
  import opened Text
  import opened Ppd
  import opened Options
  import opened Resolution
  import opened Sections

  /** One item of the `resolutions` list: the name presented, the driver's option and its text,
      the driver's own pair and the option's position in the parameter's list. */
  datatype ResEntry = ResEntry(name: string, option: string, text: string, dpi: Dpi, index: nat)

  /** What the Resolution section leaves behind: its lines, the `resolutions` list and
      `default_resolution`, the automatic name (set only when a Quality parameter exists). */
  datatype ResOutput = ResOutput(lines: seq<Line>, entries: seq<ResEntry>, automatic: Option<string>)

  /** What the search for one option depends on besides the names already taken: the driver's
      resolution for each option, the parameter's default and whether there is a Quality parameter. */
  datatype Search = Search(dpiOf: string -> Dpi, deflt: string, hasQuality: bool)

  predicate Distinct(ns: seq<string>)
  {
    forall i, j :: 0 <= i < j < |ns| ==> ns[i] != ns[j]
  }

  /** No two entries of `cs` are called `n`. */
  predicate AtMostOnce(n: string, cs: seq<StringOpt>)
  {
    forall i, j :: 0 <= i < j < |cs| && cs[i].name == n ==> cs[j].name != n
  }

  function EntryNames(es: seq<ResEntry>): seq<string>
  {
    if |es| == 0 then [] else [es[0].name] + EntryNames(es[1..])
  }

  lemma {:induction false} EntryNamesSnoc(es: seq<ResEntry>, e: ResEntry)
    ensures EntryNames(es + [e]) == EntryNames(es) + [e.name]
    decreases |es|
  {
    if |es| > 0 {
      assert (es + [e])[1..] == es[1..] + [e];
      EntryNamesSnoc(es[1..], e);
    }
  }

  function EntryOptions(es: seq<ResEntry>): seq<string>
  {
    if |es| == 0 then [] else [es[0].option] + EntryOptions(es[1..])
  }

  lemma {:induction false} EntryOptionsSnoc(es: seq<ResEntry>, e: ResEntry)
    ensures EntryOptions(es + [e]) == EntryOptions(es) + [e.option]
    decreases |es|
  {
    if |es| > 0 {
      assert (es + [e])[1..] == es[1..] + [e];
      EntryOptionsSnoc(es[1..], e);
    }
  }

  /** The driver has no pair for this option (the "None" resolution): it gets no choice. */
  predicate Skipped(s: Search, opt: StringOpt)
  {
    s.dpiOf(opt.name).x == -1 || s.dpiOf(opt.name).y == -1
  }

  /** Without a Quality parameter the default option keeps its name even when it is taken. */
  predicate Exempt(s: Search, opt: StringOpt)
  {
    !s.hasQuality && opt.name == s.deflt
  }

  /** The options of `cs` that get a choice, in order. */
  function Kept(s: Search, cs: seq<StringOpt>): seq<StringOpt>
  {
    if |cs| == 0 then []
    else Kept(s, cs[..|cs| - 1]) + (if Skipped(s, cs[|cs| - 1]) then [] else [cs[|cs| - 1]])
  }

  /** The entry for option `opt` at position `i`, given the names taken; None when the search
      exhausts the name space and the loop of genppd.c:2276-2299 would never end. */
  function Resolve(s: Search, taken: seq<string>, opt: StringOpt, i: nat): Option<ResEntry>
  {
    var raw := s.dpiOf(opt.name);
    var c := ClampPair(raw);
    var r := Settle(c, Exempt(s, opt), taken, SearchBound(c));
    if r.None? then None else Some(ResEntry(NameOf(r.value), opt.name, opt.text, raw, i))
  }

  /** The `resolutions` list built by the loop of genppd.c:2256-2306 over `cs`, the names in
      `seed` being reserved beforehand; None when one of the searches exhausts. */
  function Entries(s: Search, seed: seq<string>, cs: seq<StringOpt>): Option<seq<ResEntry>>
    decreases |cs|
  {
    if |cs| == 0 then Some([])
    else
      var prev := Entries(s, seed, cs[..|cs| - 1]);
      var opt := cs[|cs| - 1];
      if prev.None? then None
      else if Skipped(s, opt) then prev
      else
        var e := Resolve(s, seed + EntryNames(prev.value), opt, |cs| - 1);
        if e.None? then None else Some(prev.value + [e.value])
  }

  /** The code of an entry: the driver's own pair and compression mode `index + 1`. */
  function EntryCode(e: ResEntry): string
  {
    "\t\"" + HWResolution(e.dpi) + "/cupsCompression " + IntToString(e.index + 1) + ">>setpagedevice\""
  }

  /** The lines of one entry: its choice, and a mapping line when its name is not the option's. */
  function EntryLines(po: Catalog, masked: bool, deflt: string, e: ResEntry): seq<Line>
  {
    [Choice(masked && e.option != deflt, "Resolution", e.name, Tr(po, e.text), EntryCode(e))]
    + (if e.name != e.option then [Mapping(e.name, e.option)] else [])
  }

  function AllEntryLines(po: Catalog, masked: bool, deflt: string, es: seq<ResEntry>): seq<Line>
  {
    if |es| == 0 then []
    else AllEntryLines(po, masked, deflt, es[..|es| - 1]) + EntryLines(po, masked, deflt, es[|es| - 1])
  }

  /** The entries renamed by the search, as (name, option) pairs in order. */
  function Renamed(es: seq<ResEntry>): seq<(string, string)>
  {
    if |es| == 0 then []
    else
      var e := es[|es| - 1];
      Renamed(es[..|es| - 1]) + (if e.name != e.option then [(e.name, e.option)] else [])
  }

  /** The non-square name "(t+1)x(t)dpi" for the smaller clamped axis t of the quality default's
      resolution. */
  function AutomaticName(raw: Dpi): string
  {
    var c := ClampPair(raw);
    var t := if c.y < c.x then c.y else c.x;
    IntToString(t + 1) + "x" + IntToString(t) + "dpi"
  }

  /** The name reserved before the loop when there is no Quality parameter: the default's clamped name. */
  function SeedName(raw: Dpi): string
  {
    NameOf(ClampPair(raw))
  }

  /** The same name as the code derives it, from the default's pair before clamping. */
  function SeedNameAsWritten(raw: Dpi): string
  {
    ResName(raw.x, raw.y)
  }

  function ResolutionHead(po: Catalog, d: ParamDesc): seq<Line>
    requires d.bounds.ListBounds?
  {
    ColorKeyWords(d.isColor, "Resolution")
    + [OpenUI("Resolution", Tr(po, "Resolution")),
       Hint("Resolution", if |d.bounds.choices| > 3 then "resolution radiobuttons" else "resolution dropdown"),
       OrderDependency("Resolution"),
       Fields(d, 0, 0, 0)]
  }

  /** The default and the "Automatic" choice written when there is a Quality parameter: named
      `name`, it asks for the quality default's own pair and maps to no driver resolution. */
  function AutomaticLines(po: Catalog, name: string, raw: Dpi): seq<Line>
  {
    Defaults("Resolution", name)
    + [Choice(false, "Resolution", name, Tr(po, "Automatic"), "\t\"" + HWResolution(raw) + ">>setpagedevice\""),
       Mapping(name, "None")]
  }

  function SearchOf(drv: Driver, hasQuality: bool, d: ParamDesc): Search
    requires d.bounds.ListBounds?
  {
    Search(drv.resolutionDpi, d.bounds.deflt, hasQuality)
  }

  /** The section is written for an active string list, in the simplified variant only at the basic level. */
  predicate ResolutionShown(simplified: bool, d: ParamDesc)
  {
    d.bounds.ListBounds? && d.isActive && (!simplified || d.pLevel == LevelBasic)
  }

  /** The section once the name `seed` is reserved (the automatic name with a Quality parameter,
      otherwise the default's name); None when a search exhausts. */
  function SectionFrom(t: PpdType, po: Catalog, drv: Driver, hasQuality: bool, qualityDefault: string,
                       d: ParamDesc, seed: string): Option<ResOutput>
    requires d.bounds.ListBounds?
  {
    var es := Entries(SearchOf(drv, hasQuality, d), [seed], d.bounds.choices);
    if es.None? then None
    else
      var lines := SectionLines(po, drv, hasQuality, qualityDefault, d, seed, SkipColor(t, d), es.value);
      Some(ResOutput(lines, es.value, if hasQuality then Some(seed) else None))
  }

  /** The name reserved by the section: with a Quality parameter the automatic name, derived from
      `drv.qualityDpi(qualityDefault)`, the pair of the quality default. */
  function ReservedName(drv: Driver, hasQuality: bool, qualityDefault: string, d: ParamDesc): string
    requires d.bounds.ListBounds?
  {
    if hasQuality then AutomaticName(drv.qualityDpi(qualityDefault)) else SeedName(drv.resolutionDpi(d.bounds.deflt))
  }

  function ReservedNameAsWritten(drv: Driver, hasQuality: bool, qualityDefault: string, d: ParamDesc): string
    requires d.bounds.ListBounds?
  {
    if hasQuality then AutomaticName(drv.qualityDpi(qualityDefault)) else SeedNameAsWritten(drv.resolutionDpi(d.bounds.deflt))
  }

  function ResolutionSection(simplified: bool, t: PpdType, po: Catalog, drv: Driver, hasQuality: bool,
                             qualityDefault: string, d: ParamDesc): Option<ResOutput>
  {
    if ResolutionShown(simplified, d) then
      SectionFrom(t, po, drv, hasQuality, qualityDefault, d, ReservedName(drv, hasQuality, qualityDefault, d))
    else Some(ResOutput([], [], None))
  }

  function ResolutionSectionAsWritten(simplified: bool, t: PpdType, po: Catalog, drv: Driver, hasQuality: bool,
                                      qualityDefault: string, d: ParamDesc): Option<ResOutput>
  {
    if ResolutionShown(simplified, d) then
      SectionFrom(t, po, drv, hasQuality, qualityDefault, d, ReservedNameAsWritten(drv, hasQuality, qualityDefault, d))
    else Some(ResOutput([], [], None))
  }

  /** The Resolution section (genppd.c:2175-2326), corrected: the default's name is clamped before
      it is reserved (`ResolutionSectionAsWritten` is the code as written). */
  method PrintResolution(simplified: bool, t: PpdType, po: Catalog, drv: Driver, hasQuality: bool,
                         qualityDefault: string, d: ParamDesc) returns (r: Option<ResOutput>)
    ensures r == ResolutionSection(simplified, t, po, drv, hasQuality, qualityDefault, d)
  {
    if !(d.bounds.ListBounds? && d.isActive && (!simplified || d.pLevel == LevelBasic)) {
      return Some(ResOutput([], [], None));
    }
    var seed := ReserveName(drv, hasQuality, qualityDefault, d);
    var pre := ResolutionHead(po, d) + SectionTail(po, drv, hasQuality, qualityDefault, seed);
    var found, es, body := EnumerateResolutions(SearchOf(drv, hasQuality, d), [seed], po, SkipColor(t, d), d.bounds.deflt, d.bounds.choices);
    if !found {
      return None;
    }
    var lines := pre + body + [CloseUI("Resolution")];
    SectionAssembled(po, drv, hasQuality, qualityDefault, d, seed, SkipColor(t, d), es, body);
    r := Some(ResOutput(lines, es, if hasQuality then Some(seed) else None));
  }

  /** The section's lines are the head, the defaults, the entries' lines and the closing line. */
  lemma SectionAssembled(po: Catalog, drv: Driver, hasQuality: bool, qualityDefault: string, d: ParamDesc,
                         seed: string, masked: bool, es: seq<ResEntry>, body: seq<Line>)
    requires d.bounds.ListBounds? && body == AllEntryLines(po, masked, d.bounds.deflt, es)
    ensures (ResolutionHead(po, d) + SectionTail(po, drv, hasQuality, qualityDefault, seed)) + body + [CloseUI("Resolution")]
      == SectionLines(po, drv, hasQuality, qualityDefault, d, seed, masked, es)
  {
  }

  lemma ShownSection(simplified: bool, t: PpdType, po: Catalog, drv: Driver, hasQuality: bool, qualityDefault: string, d: ParamDesc)
    requires ResolutionShown(simplified, d)
    ensures ResolutionSection(simplified, t, po, drv, hasQuality, qualityDefault, d)
      == SectionFrom(t, po, drv, hasQuality, qualityDefault, d, ReservedName(drv, hasQuality, qualityDefault, d))
  {
  }

  /** The name reserved before the loop (genppd.c:2204-2251). */
  method ReserveName(drv: Driver, hasQuality: bool, qualityDefault: string, d: ParamDesc) returns (name: string)
    requires d.bounds.ListBounds?
    ensures name == ReservedName(drv, hasQuality, qualityDefault, d)
  {
    if hasQuality {
      var raw := drv.qualityDpi(qualityDefault);
      var tx := ClampAxis(raw.x, MaxSafeX);
      var ty := ClampAxis(raw.y, MaxSafeY);
      if ty < tx {
        tx := ty;
      }
      name := IntToString(tx + 1) + "x" + IntToString(tx) + "dpi";
    } else {
      var raw := drv.resolutionDpi(d.bounds.deflt);
      var cx := ClampAxis(raw.x, MaxSafeX);
      var cy := ClampAxis(raw.y, MaxSafeY);
      name := NameOf(Dpi(cx, cy));
    }
  }

  /** The loop of genppd.c:2256-2306. */
  method EnumerateResolutions(s: Search, seed: seq<string>, po: Catalog, masked: bool, deflt: string, cs: seq<StringOpt>)
    returns (found: bool, es: seq<ResEntry>, body: seq<Line>)
    ensures found <==> Entries(s, seed, cs).Some?
    ensures found ==> es == Entries(s, seed, cs).value && body == AllEntryLines(po, masked, deflt, es)
  {
    es := [];
    body := [];
    var taken := seed;
    var i := 0;
    while i < |cs|
      invariant 0 <= i <= |cs|
      invariant Entries(s, seed, cs[..i]) == Some(es)
      invariant taken == seed + EntryNames(es)
      invariant body == AllEntryLines(po, masked, deflt, es)
    {
      var opt := cs[i];
      var raw := s.dpiOf(opt.name);
      if raw.x == -1 || raw.y == -1 {
        SkipStep(s, seed, cs, i, es);
        i := i + 1;
        continue;
      }
      var ok, e := ResolveEntry(s, taken, opt, i);
      if !ok {
        FailStep(s, seed, cs, i, es);
        return false, [], [];
      }
      ResolveStep(s, seed, cs, i, es, e);
      AllEntryLinesSnoc(po, masked, deflt, es, e);
      es := es + [e];
      taken := taken + [e.name];
      body := body + EntryLines(po, masked, deflt, e);
      i := i + 1;
    }
    assert cs[..i] == cs;
    found := true;
  }

  /** The search for one option (genppd.c:2267-2299). */
  method ResolveEntry(s: Search, taken: seq<string>, opt: StringOpt, i: nat) returns (ok: bool, e: ResEntry)
    ensures ok <==> Resolve(s, taken, opt, i).Some?
    ensures ok ==> e == Resolve(s, taken, opt, i).value
  {
    var raw := s.dpiOf(opt.name);
    var cx := ClampAxis(raw.x, MaxSafeX);
    var cy := ClampAxis(raw.y, MaxSafeY);
    var exempt := !s.hasQuality && opt.name == s.deflt;
    assert Dpi(cx, cy) == ClampPair(raw);
    var found, name, c := Disambiguate(Dpi(cx, cy), exempt, taken);
    ok := found;
    e := ResEntry(name, opt.name, opt.text, raw, i);
  }

  /** One step of the loop. */
  lemma EntriesUnfold(s: Search, seed: seq<string>, cs: seq<StringOpt>, i: nat)
    requires i < |cs|
    ensures Entries(s, seed, cs[..i + 1]) ==
      var prev := Entries(s, seed, cs[..i]);
      if prev.None? then None
      else if Skipped(s, cs[i]) then prev
      else
        var e := Resolve(s, seed + EntryNames(prev.value), cs[i], i);
        if e.None? then None else Some(prev.value + [e.value])
  {
    assert cs[..i + 1][..i] == cs[..i];
  }

  /** An option without a pair leaves the entries as they were. */
  lemma SkipStep(s: Search, seed: seq<string>, cs: seq<StringOpt>, i: nat, es: seq<ResEntry>)
    requires i < |cs| && Entries(s, seed, cs[..i]) == Some(es) && Skipped(s, cs[i])
    ensures Entries(s, seed, cs[..i + 1]) == Some(es)
  {
    EntriesUnfold(s, seed, cs, i);
  }

  /** An option whose search fails ends the whole list's search. */
  lemma FailStep(s: Search, seed: seq<string>, cs: seq<StringOpt>, i: nat, es: seq<ResEntry>)
    requires i < |cs| && Entries(s, seed, cs[..i]) == Some(es) && !Skipped(s, cs[i])
    requires Resolve(s, seed + EntryNames(es), cs[i], i).None?
    ensures Entries(s, seed, cs).None?
  {
    EntriesUnfold(s, seed, cs, i);
    EntriesStayNone(s, seed, cs, i + 1);
  }

  /** An option whose search succeeds adds its entry, and its name to those taken. */
  lemma ResolveStep(s: Search, seed: seq<string>, cs: seq<StringOpt>, i: nat, es: seq<ResEntry>, e: ResEntry)
    requires i < |cs| && Entries(s, seed, cs[..i]) == Some(es) && !Skipped(s, cs[i])
    requires Resolve(s, seed + EntryNames(es), cs[i], i) == Some(e)
    ensures Entries(s, seed, cs[..i + 1]) == Some(es + [e])
    ensures seed + EntryNames(es + [e]) == seed + EntryNames(es) + [e.name]
  {
    EntriesUnfold(s, seed, cs, i);
    EntryNamesSnoc(es, e);
    AppendAssoc(seed, EntryNames(es), [e.name]);
  }

  lemma AllEntryLinesSnoc(po: Catalog, masked: bool, deflt: string, es: seq<ResEntry>, e: ResEntry)
    ensures AllEntryLines(po, masked, deflt, es + [e]) == AllEntryLines(po, masked, deflt, es) + EntryLines(po, masked, deflt, e)
  {
    assert (es + [e])[..|es|] == es;
  }

  /** Once a search has exhausted, the loop never gets past it. */
  lemma {:induction false} EntriesStayNone(s: Search, seed: seq<string>, cs: seq<StringOpt>, n: nat)
    requires n <= |cs| && Entries(s, seed, cs[..n]).None?
    ensures Entries(s, seed, cs).None?
    decreases |cs| - n
  {
    if n == |cs| {
      assert cs[..n] == cs;
    } else {
      assert cs[..n + 1][..n] == cs[..n];
      EntriesStayNone(s, seed, cs, n + 1);
    }
  }

  /** The name of a candidate within the ceilings. */
  ghost predicate SafeName(n: string)
  {
    exists c: Dpi :: c.x <= MaxSafeX && c.y <= MaxSafeY && n == NameOf(c)
  }

  /** The loop gives a choice to exactly the options with a pair, in order. */
  lemma {:induction false} EntriesKept(s: Search, seed: seq<string>, cs: seq<StringOpt>)
    requires Entries(s, seed, cs).Some?
    ensures EntryOptions(Entries(s, seed, cs).value) == OptNames(Kept(s, cs))
    decreases |cs|
  {
    if |cs| > 0 {
      var init := cs[..|cs| - 1];
      var opt := cs[|cs| - 1];
      EntriesKept(s, seed, init);
      var es := Entries(s, seed, init).value;
      if !Skipped(s, opt) {
        var e := Resolve(s, seed + EntryNames(es), opt, |cs| - 1).value;
        assert Entries(s, seed, cs).value == es + [e];
        assert Kept(s, cs) == Kept(s, init) + [opt];
        EntryOptionsSnoc(es, e);
        OptNamesSnoc(Kept(s, init), opt);
      } else {
        assert Kept(s, cs) == Kept(s, init) + [];
        assert Kept(s, init) + [] == Kept(s, init);
      }
    }
  }

  /** Each entry keeps its option's text, position and pair, and carries a name within the ceilings. */
  lemma {:induction false} EntriesWellFormed(s: Search, seed: seq<string>, cs: seq<StringOpt>)
    requires Entries(s, seed, cs).Some?
    ensures forall e :: e in Entries(s, seed, cs).value ==>
      e.index < |cs| && cs[e.index] == StringOpt(e.option, e.text) && e.dpi == s.dpiOf(e.option)
      && e.dpi.x != -1 && e.dpi.y != -1 && SafeName(e.name)
    decreases |cs|
  {
    if |cs| > 0 {
      var init := cs[..|cs| - 1];
      var opt := cs[|cs| - 1];
      EntriesWellFormed(s, seed, init);
      var es := Entries(s, seed, init).value;
      if !Skipped(s, opt) {
        var taken := seed + EntryNames(es);
        var c := ClampPair(s.dpiOf(opt.name));
        SettleResult(c, Exempt(s, opt), taken, SearchBound(c));
        var e := Resolve(s, taken, opt, |cs| - 1).value;
        var r := Settle(c, Exempt(s, opt), taken, SearchBound(c)).value;
        assert e.name == NameOf(r);
        assert Entries(s, seed, cs).value == es + [e];
        forall x | x in es + [e]
          ensures x.index < |cs| && cs[x.index] == StringOpt(x.option, x.text) && x.dpi == s.dpiOf(x.option)
            && x.dpi.x != -1 && x.dpi.y != -1 && SafeName(x.name)
        {
          if x in es {
            assert cs[x.index] == init[x.index];
          }
        }
      }
    }
  }

  /** With a Quality parameter, or with the default's clamped name reserved and the default
      listed at most once, no two entries share a name; and the reserved name is given to no entry
      but the default's. */
  lemma {:induction false} EntriesDistinct(s: Search, s0: string, cs: seq<StringOpt>)
    requires s.hasQuality || (AtMostOnce(s.deflt, cs) && s0 == SeedName(s.dpiOf(s.deflt)))
    requires Entries(s, [s0], cs).Some?
    ensures Distinct(EntryNames(Entries(s, [s0], cs).value))
    ensures s.hasQuality || s.deflt !in OptNames(cs) ==> s0 !in EntryNames(Entries(s, [s0], cs).value)
    decreases |cs|
  {
    if |cs| > 0 {
      var init := cs[..|cs| - 1];
      var opt := cs[|cs| - 1];
      assert forall k :: 0 <= k < |init| ==> init[k] == cs[k];
      EntriesDistinct(s, s0, init);
      var es := Entries(s, [s0], init).value;
      ChoicesSnoc(cs);
      OptNamesSnoc(init, opt);
      if !Skipped(s, opt) {
        var taken := [s0] + EntryNames(es);
        var c := ClampPair(s.dpiOf(opt.name));
        SettleResult(c, Exempt(s, opt), taken, SearchBound(c));
        var e := Resolve(s, taken, opt, |cs| - 1).value;
        EntryNamesSnoc(es, e);
        if Exempt(s, opt) {
          assert s.deflt !in OptNames(init);
          assert e.name == s0;
        } else {
          assert e.name !in taken;
        }
        assert e.name !in EntryNames(es);
        var ns := EntryNames(es + [e]);
        forall i, j | 0 <= i < j < |ns|
          ensures ns[i] != ns[j]
        {
          if j < |ns| - 1 {
            assert ns[i] == EntryNames(es)[i] && ns[j] == EntryNames(es)[j];
          } else {
            assert ns[i] in EntryNames(es);
          }
        }
      }
    }
  }

  lemma ChoicesSnoc(cs: seq<StringOpt>)
    requires |cs| > 0
    ensures cs[..|cs| - 1] + [cs[|cs| - 1]] == cs
  {
  }

  /** Without a Quality parameter, the default option (when it has a pair) is given the reserved name. */
  lemma {:induction false} DefaultEntryNamed(s: Search, s0: string, cs: seq<StringOpt>)
    requires !s.hasQuality && s0 == SeedName(s.dpiOf(s.deflt))
    requires s.deflt in OptNames(cs) && s.dpiOf(s.deflt).x != -1 && s.dpiOf(s.deflt).y != -1
    requires Entries(s, [s0], cs).Some?
    ensures s0 in EntryNames(Entries(s, [s0], cs).value)
    decreases |cs|
  {
    var init := cs[..|cs| - 1];
    var opt := cs[|cs| - 1];
    ChoicesSnoc(cs);
    OptNamesSnoc(init, opt);
    var es := Entries(s, [s0], init).value;
    if opt.name == s.deflt {
      var taken := [s0] + EntryNames(es);
      var c := ClampPair(s.dpiOf(opt.name));
      SettleResult(c, true, taken, SearchBound(c));
      var e := Resolve(s, taken, opt, |cs| - 1).value;
      EntryNamesSnoc(es, e);
    } else {
      DefaultEntryNamed(s, s0, init);
      if !Skipped(s, opt) {
        var e := Resolve(s, [s0] + EntryNames(es), opt, |cs| - 1).value;
        EntryNamesSnoc(es, e);
      }
    }
  }

  lemma EntryLinesDeclare(po: Catalog, masked: bool, deflt: string, e: ResEntry)
    ensures Declarations(EntryLines(po, masked, deflt, e), "Resolution") == [e.name]
    ensures Mappings(EntryLines(po, masked, deflt, e)) == if e.name != e.option then [(e.name, e.option)] else []
  {
    var ls := EntryLines(po, masked, deflt, e);
    var choice := ls[..1];
    var maps := ls[1..];
    assert ls == choice + maps;
    assert Declarations(choice, "Resolution") == [e.name];
    assert Declarations(maps, "Resolution") == [];
    assert Mappings(maps) == if e.name != e.option then [(e.name, e.option)] else [];
    DeclarationsAppend(choice, maps, "Resolution");
    MappingsAppend(choice, maps);
  }

  /** The names of a non-empty list are those of all but its last entry, then the last one's. */
  lemma EntryNamesLast(es: seq<ResEntry>)
    requires |es| > 0
    ensures EntryNames(es) == EntryNames(es[..|es| - 1]) + [es[|es| - 1].name]
  {
    assert es[..|es| - 1] + [es[|es| - 1]] == es;
    EntryNamesSnoc(es[..|es| - 1], es[|es| - 1]);
  }

  /** The lines of a non-empty list declare those of all but its last entry, then the last one's name. */
  lemma AllEntryLinesStep(po: Catalog, masked: bool, deflt: string, es: seq<ResEntry>)
    requires |es| > 0
    ensures Declarations(AllEntryLines(po, masked, deflt, es), "Resolution")
         == Declarations(AllEntryLines(po, masked, deflt, es[..|es| - 1]), "Resolution") + [es[|es| - 1].name]
  {
    var e := es[|es| - 1];
    EntryLinesDeclare(po, masked, deflt, e);
    DeclarationsAppend(AllEntryLines(po, masked, deflt, es[..|es| - 1]), EntryLines(po, masked, deflt, e), "Resolution");
  }

  /** The entries' lines declare exactly their names. */
  lemma {:induction false} AllEntryLinesDeclare(po: Catalog, masked: bool, deflt: string, es: seq<ResEntry>)
    ensures Declarations(AllEntryLines(po, masked, deflt, es), "Resolution") == EntryNames(es)
    decreases |es|
  {
    if |es| > 0 {
      AllEntryLinesDeclare(po, masked, deflt, es[..|es| - 1]);
      AllEntryLinesStep(po, masked, deflt, es);
      EntryNamesLast(es);
    }
  }

  /** The entries' lines map exactly the entries whose name is not their option's. */
  lemma {:induction false} AllEntryLinesMap(po: Catalog, masked: bool, deflt: string, es: seq<ResEntry>)
    ensures Mappings(AllEntryLines(po, masked, deflt, es)) == Renamed(es)
    decreases |es|
  {
    if |es| > 0 {
      var init := es[..|es| - 1];
      var e := es[|es| - 1];
      AllEntryLinesMap(po, masked, deflt, init);
      var ls := EntryLines(po, masked, deflt, e);
      EntryLinesDeclare(po, masked, deflt, e);
      assert AllEntryLines(po, masked, deflt, es) == AllEntryLines(po, masked, deflt, init) + ls;
      MappingsAppend(AllEntryLines(po, masked, deflt, init), ls);
    }
  }

  lemma ResolutionHeadDeclaresNothing(po: Catalog, d: ParamDesc)
    requires d.bounds.ListBounds?
    ensures Declarations(ResolutionHead(po, d), "Resolution") == []
    ensures Mappings(ResolutionHead(po, d)) == []
  {
    assert "OpenUI" != "Resolution" by { assert |"OpenUI"| != |"Resolution"|; }
    HeadDeclaresNothing(d.isColor, "Resolution", OpenUI("Resolution", Tr(po, "Resolution")),
      Hint("Resolution", if |d.bounds.choices| > 3 then "resolution radiobuttons" else "resolution dropdown"),
      OrderDependency("Resolution"), Fields(d, 0, 0, 0), "Resolution");
  }

  /** The automatic choice is declared under its name and mapped to "None". */
  lemma AutomaticDeclares(po: Catalog, name: string, raw: Dpi)
    ensures Declarations(AutomaticLines(po, name, raw), "Resolution") == [name]
    ensures Mappings(AutomaticLines(po, name, raw)) == [(name, "None")]
  {
    var ls := AutomaticLines(po, name, raw);
    var a := [ls[0], ls[1]];
    var b := [ls[2]];
    var c := [ls[3]];
    assert ls == a + b + c;
    DeclarationsNone(a, "Resolution");
    DeclarationsNone(c, "Resolution");
    assert Declarations(b, "Resolution") == [name];
    MappingsNone(a);
    MappingsNone(b);
    assert Mappings(c) == [(name, "None")];
    Declarations3(a, b, c, "Resolution");
    MappingsAppend(a, b);
    MappingsAppend(a + b, c);
  }

  function SectionTail(po: Catalog, drv: Driver, hasQuality: bool, qualityDefault: string, seed: string): seq<Line>
  {
    if hasQuality then AutomaticLines(po, seed, drv.qualityDpi(qualityDefault)) else Defaults("Resolution", seed)
  }

  lemma TailDeclares(po: Catalog, drv: Driver, hasQuality: bool, qualityDefault: string, seed: string)
    ensures Declarations(SectionTail(po, drv, hasQuality, qualityDefault, seed), "Resolution") == if hasQuality then [seed] else []
    ensures Mappings(SectionTail(po, drv, hasQuality, qualityDefault, seed)) == if hasQuality then [(seed, "None")] else []
    ensures SectionTail(po, drv, hasQuality, qualityDefault, seed)[0] == Plain("*DefaultResolution: " + seed + "\n")
  {
    if hasQuality {
      AutomaticDeclares(po, seed, drv.qualityDpi(qualityDefault));
    } else {
      DefaultsDeclareNothing("Resolution", seed, "Resolution");
    }
  }

  /** The lines of a section with entries `es`. */
  function SectionLines(po: Catalog, drv: Driver, hasQuality: bool, qualityDefault: string, d: ParamDesc,
                        seed: string, masked: bool, es: seq<ResEntry>): seq<Line>
    requires d.bounds.ListBounds?
  {
    (ResolutionHead(po, d) + SectionTail(po, drv, hasQuality, qualityDefault, seed))
      + AllEntryLines(po, masked, d.bounds.deflt, es) + [CloseUI("Resolution")]
  }

  /** Declarations and mappings of a four-part section whose first and last parts have none. */
  lemma Compose4(a: seq<Line>, b: seq<Line>, c: seq<Line>, e: seq<Line>, kw: string)
    requires Declarations(a, kw) == [] && Declarations(e, kw) == [] && Mappings(a) == [] && Mappings(e) == []
    ensures Declarations((a + b) + c + e, kw) == Declarations(b, kw) + Declarations(c, kw)
    ensures Mappings((a + b) + c + e) == Mappings(b) + Mappings(c)
  {
    DeclarationsAppend(a, b, kw);
    Declarations3(a + b, c, e, kw);
    MappingsAppend(a, b);
    MappingsAppend(a + b, c);
    MappingsAppend(a + b + c, e);
  }

  lemma SectionLinesDeclare(po: Catalog, drv: Driver, hasQuality: bool, qualityDefault: string, d: ParamDesc,
                            seed: string, masked: bool, es: seq<ResEntry>)
    requires d.bounds.ListBounds?
    ensures Declarations(SectionLines(po, drv, hasQuality, qualityDefault, d, seed, masked, es), "Resolution")
      == (if hasQuality then [seed] else []) + EntryNames(es)
    ensures Mappings(SectionLines(po, drv, hasQuality, qualityDefault, d, seed, masked, es))
      == (if hasQuality then [(seed, "None")] else []) + Renamed(es)
  {
    var close := [CloseUI("Resolution")];
    ResolutionHeadDeclaresNothing(po, d);
    TailDeclares(po, drv, hasQuality, qualityDefault, seed);
    AllEntryLinesDeclare(po, masked, d.bounds.deflt, es);
    AllEntryLinesMap(po, masked, d.bounds.deflt, es);
    DeclarationsNone(close, "Resolution");
    MappingsNone(close);
    Compose4(ResolutionHead(po, d), SectionTail(po, drv, hasQuality, qualityDefault, seed),
             AllEntryLines(po, masked, d.bounds.deflt, es), close, "Resolution");
  }

  /** What the section declares: the automatic name when there is a Quality parameter, then every
      entry's name in order. */
  lemma SectionDeclarations(t: PpdType, po: Catalog, drv: Driver, hasQuality: bool, qualityDefault: string,
                            d: ParamDesc, seed: string)
    requires d.bounds.ListBounds? && SectionFrom(t, po, drv, hasQuality, qualityDefault, d, seed).Some?
    ensures var out := SectionFrom(t, po, drv, hasQuality, qualityDefault, d, seed).value;
      Declarations(out.lines, "Resolution") == (if hasQuality then [seed] else []) + EntryNames(out.entries)
  {
    var out := SectionFrom(t, po, drv, hasQuality, qualityDefault, d, seed).value;
    assert out.lines == SectionLines(po, drv, hasQuality, qualityDefault, d, seed, SkipColor(t, d), out.entries);
    SectionLinesDeclare(po, drv, hasQuality, qualityDefault, d, seed, SkipColor(t, d), out.entries);
  }

  /** What the section maps: the automatic name to "None", then every renamed entry to its option. */
  lemma SectionMappings(t: PpdType, po: Catalog, drv: Driver, hasQuality: bool, qualityDefault: string,
                        d: ParamDesc, seed: string)
    requires d.bounds.ListBounds? && SectionFrom(t, po, drv, hasQuality, qualityDefault, d, seed).Some?
    ensures var out := SectionFrom(t, po, drv, hasQuality, qualityDefault, d, seed).value;
      Mappings(out.lines) == (if hasQuality then [(seed, "None")] else []) + Renamed(out.entries)
  {
    var out := SectionFrom(t, po, drv, hasQuality, qualityDefault, d, seed).value;
    assert out.lines == SectionLines(po, drv, hasQuality, qualityDefault, d, seed, SkipColor(t, d), out.entries);
    SectionLinesDeclare(po, drv, hasQuality, qualityDefault, d, seed, SkipColor(t, d), out.entries);
  }

  /** The *DefaultResolution line names the reserved name. */
  lemma SectionDefault(t: PpdType, po: Catalog, drv: Driver, hasQuality: bool, qualityDefault: string,
                       d: ParamDesc, seed: string)
    requires d.bounds.ListBounds? && SectionFrom(t, po, drv, hasQuality, qualityDefault, d, seed).Some?
    ensures Plain("*DefaultResolution: " + seed + "\n") in SectionFrom(t, po, drv, hasQuality, qualityDefault, d, seed).value.lines
  {
    var out := SectionFrom(t, po, drv, hasQuality, qualityDefault, d, seed).value;
    var head := ResolutionHead(po, d);
    assert out.lines == SectionLines(po, drv, hasQuality, qualityDefault, d, seed, SkipColor(t, d), out.entries);
    TailDeclares(po, drv, hasQuality, qualityDefault, seed);
    assert out.lines[|head|] == SectionTail(po, drv, hasQuality, qualityDefault, seed)[0];
  }

  /** With a Quality parameter, or when the default is listed at most once, the section declares
      no resolution name twice. */
  lemma ResolutionNamesUnique(simplified: bool, t: PpdType, po: Catalog, drv: Driver, hasQuality: bool,
                              qualityDefault: string, d: ParamDesc)
    requires d.bounds.ListBounds? && (hasQuality || AtMostOnce(d.bounds.deflt, d.bounds.choices))
    requires ResolutionSection(simplified, t, po, drv, hasQuality, qualityDefault, d).Some?
    ensures Distinct(Declarations(ResolutionSection(simplified, t, po, drv, hasQuality, qualityDefault, d).value.lines, "Resolution"))
  {
    var out := ResolutionSection(simplified, t, po, drv, hasQuality, qualityDefault, d).value;
    if ResolutionShown(simplified, d) {
      var seed := ReservedName(drv, hasQuality, qualityDefault, d);
      SectionDeclarations(t, po, drv, hasQuality, qualityDefault, d, seed);
      EntriesDistinct(SearchOf(drv, hasQuality, d), seed, d.bounds.choices);
      var names := EntryNames(out.entries);
      if hasQuality {
        var all := [seed] + names;
        forall i, j | 0 <= i < j < |all|
          ensures all[i] != all[j]
        {
          if i == 0 {
            assert all[j] in names;
          } else {
            assert all[i] == names[i - 1] && all[j] == names[j - 1];
          }
        }
      }
    }
  }

  /** The name of *DefaultResolution is reserved and then declared: as the automatic choice when
      there is a Quality parameter, otherwise by the default option, when it is listed and has a pair. */
  lemma ResolutionDefaultDeclared(simplified: bool, t: PpdType, po: Catalog, drv: Driver, hasQuality: bool,
                                  qualityDefault: string, d: ParamDesc)
    requires ResolutionShown(simplified, d)
    requires ResolutionSection(simplified, t, po, drv, hasQuality, qualityDefault, d).Some?
    requires hasQuality || (d.bounds.deflt in OptNames(d.bounds.choices)
      && drv.resolutionDpi(d.bounds.deflt).x != -1 && drv.resolutionDpi(d.bounds.deflt).y != -1)
    ensures var out := ResolutionSection(simplified, t, po, drv, hasQuality, qualityDefault, d).value;
      Plain("*DefaultResolution: " + ReservedName(drv, hasQuality, qualityDefault, d) + "\n") in out.lines
      && ReservedName(drv, hasQuality, qualityDefault, d) in Declarations(out.lines, "Resolution")
  {
    var seed := ReservedName(drv, hasQuality, qualityDefault, d);
    SectionDeclarations(t, po, drv, hasQuality, qualityDefault, d, seed);
    SectionDefault(t, po, drv, hasQuality, qualityDefault, d, seed);
    if !hasQuality {
      DefaultEntryNamed(SearchOf(drv, hasQuality, d), seed, d.bounds.choices);
    }
  }

  /** The automatic name: "(t+1)x(t)dpi", never square, for the smaller clamped axis t, which is
      within the vertical ceiling. */
  lemma AutomaticNameShape(raw: Dpi)
    ensures var c := ClampPair(raw); var t := if c.y < c.x then c.y else c.x;
      t <= MaxSafeY && t <= c.x && t <= c.y && (t == c.x || t == c.y)
      && AutomaticName(raw) == ResName(t + 1, t) && 'x' in AutomaticName(raw)
  {
    var c := ClampPair(raw);
    var t := if c.y < c.x then c.y else c.x;
    ResNameShape(t + 1, t);
  }

  /** A driver whose default, 3000x720 dpi, comes after an option of 1500x720 dpi. */
  function SeedDriver(): Driver
  {
    Driver(n => Dpi(-1, -1), n => if n == "D" then Dpi(3000, 720) else Dpi(1500, 720))
  }

  function SeedParam(): ParamDesc
  {
    ParamDesc("Resolution", "Resolution", 0, LevelBasic, false, true, false, 0, false,
              ListBounds([StringOpt("A", "A"), StringOpt("D", "D")], "D"))
  }

  function SeedSearch(): Search
  {
    Search(SeedDriver().resolutionDpi, "D", false)
  }

  /** The clamped pair of both options. */
  lemma SeedClamps()
    ensures ClampPair(Dpi(1500, 720)) == Dpi(1500, 720) && ClampPair(Dpi(3000, 720)) == Dpi(1500, 720)
    ensures SearchBound(Dpi(1500, 720)) == CycleLength
    ensures NameOf(Dpi(1500, 720)) != ResName(3000, 720)
  {
    ClampProperties(1500, MaxSafeX);
    ClampProperties(720, MaxSafeY);
    ClampProperties(3000, MaxSafeX);
    assert Halvings(1500, MaxSafeX) == 0;
    assert Halvings(3000, MaxSafeX) == 1;
    assert StepsToTop(Dpi(1500, 720)) == 0;
    if NameOf(Dpi(1500, 720)) == ResName(3000, 720) {
      ResNameInjective(1500, 720, 3000, 720);
    }
  }

  /** The first option takes the clamped name, which the unclamped reservation leaves free. */
  lemma SeedFirstEntry()
    ensures Entries(SeedSearch(), [ResName(3000, 720)], [StringOpt("A", "A")])
      == Some([ResEntry(NameOf(Dpi(1500, 720)), "A", "A", Dpi(1500, 720), 0)])
  {
    var s := SeedSearch();
    var a := StringOpt("A", "A");
    var seed := ResName(3000, 720);
    var c := Dpi(1500, 720);
    SeedClamps();
    assert "A" != "D";
    assert s.dpiOf("A") == c && !Exempt(s, a);
    assert Settle(c, false, [seed], CycleLength) == Some(c);
    var e1 := ResEntry(NameOf(c), "A", "A", c, 0);
    var none: seq<ResEntry> := [];
    assert Resolve(s, [seed] + EntryNames(none), a, 0) == Some(e1);
    EntriesUnfold(s, [seed], [a], 0);
    assert [a][..1] == [a] && [a][..0] == [] && [a][0] == a;
    assert Entries(s, [seed], [a][..0]) == Some(none);
    assert none + [e1] == [e1];
  }

  /** The default, exempt, takes the same clamped name. */
  lemma SeedEntries()
    ensures Entries(SeedSearch(), [ResName(3000, 720)], SeedParam().bounds.choices)
      == Some([ResEntry(NameOf(Dpi(1500, 720)), "A", "A", Dpi(1500, 720), 0),
               ResEntry(NameOf(Dpi(1500, 720)), "D", "D", Dpi(3000, 720), 1)])
  {
    var s := SeedSearch();
    var a := StringOpt("A", "A");
    var dd := StringOpt("D", "D");
    var cs := [a, dd];
    var seed := ResName(3000, 720);
    var c := Dpi(1500, 720);
    SeedClamps();
    SeedFirstEntry();
    var e1 := ResEntry(NameOf(c), "A", "A", c, 0);
    var e2 := ResEntry(NameOf(c), "D", "D", Dpi(3000, 720), 1);
    assert s.dpiOf("D") == Dpi(3000, 720) && Exempt(s, dd);
    assert Settle(c, true, [seed, NameOf(c)], CycleLength) == Some(c);
    assert [seed] + EntryNames([e1]) == [seed, NameOf(c)];
    assert Resolve(s, [seed] + EntryNames([e1]), dd, 1) == Some(e2);
    EntriesUnfold(s, [seed], cs, 1);
    assert cs[..1] == [a] && cs[..2] == cs && cs[1] == dd;
    assert [e1] + [e2] == [e1, e2];
  }

  /** As written, without a Quality parameter, the name reserved for the default is made from its
      unclamped pair: "3000x720dpi" is reserved, the first option takes "1500x720dpi" and the
      default, exempt from the check, takes "1500x720dpi" as well; the name *DefaultResolution
      gives is declared by no choice. */
  lemma DefaultSeedUnclamped()
    ensures var out := ResolutionSectionAsWritten(false, Standard, map[], SeedDriver(), false, "", SeedParam());
      out.Some?
      && Declarations(out.value.lines, "Resolution") == [NameOf(Dpi(1500, 720)), NameOf(Dpi(1500, 720))]
      && ResName(3000, 720) !in Declarations(out.value.lines, "Resolution")
  {
    var c := Dpi(1500, 720);
    SeedSection();
    TwoEntryDeclarations(Standard, map[], SeedDriver(), "", SeedParam(), ResName(3000, 720),
      ResEntry(NameOf(c), "A", "A", c, 0), ResEntry(NameOf(c), "D", "D", Dpi(3000, 720), 1));
    SeedClamps();
  }

  /** Without a Quality parameter, a section of two entries declares their two names. */
  lemma TwoEntryDeclarations(t: PpdType, po: Catalog, drv: Driver, qualityDefault: string, d: ParamDesc, seed: string,
                             e1: ResEntry, e2: ResEntry)
    requires d.bounds.ListBounds? && SectionFrom(t, po, drv, false, qualityDefault, d, seed).Some?
    requires SectionFrom(t, po, drv, false, qualityDefault, d, seed).value.entries == [e1, e2]
    ensures Declarations(SectionFrom(t, po, drv, false, qualityDefault, d, seed).value.lines, "Resolution") == [e1.name, e2.name]
  {
    SectionDeclarations(t, po, drv, false, qualityDefault, d, seed);
    EntryNamesSnoc([e1], e2);
    assert [e1] + [e2] == [e1, e2];
  }

  /** The section the code writes for the example: the one seeded with the unclamped name, whose
      entries `SeedEntries` gives. */
  lemma SeedSection()
    ensures var out := ResolutionSectionAsWritten(false, Standard, map[], SeedDriver(), false, "", SeedParam());
      out == SectionFrom(Standard, map[], SeedDriver(), false, "", SeedParam(), ResName(3000, 720))
      && out.Some?
      && out.value.entries == [ResEntry(NameOf(Dpi(1500, 720)), "A", "A", Dpi(1500, 720), 0),
                               ResEntry(NameOf(Dpi(1500, 720)), "D", "D", Dpi(3000, 720), 1)]
  {
    assert ReservedNameAsWritten(SeedDriver(), false, "", SeedParam()) == ResName(3000, 720);
    assert SearchOf(SeedDriver(), false, SeedParam()) == SeedSearch();
    SeedEntries();
  }

  /** A translation line for every entry, in order. */
  function LocEntries(po: Catalog, lang: string, es: seq<ResEntry>): seq<Line>
  {
    if |es| == 0 then []
    else LocEntries(po, lang, es[..|es| - 1]) + [Localized(lang, "Resolution", es[|es| - 1].name, Tr(po, es[|es| - 1].text))]
  }

  /** genppd.c:2612-2628 as written: `automatic` is `default_resolution`, which is still unset when
      the main pass wrote no Resolution section; formatting it then is undefined (None). */
  function LocResolutionAsWritten(simplified: bool, po: Catalog, lang: string, hasQuality: bool, d: ParamDesc,
                                  automatic: Option<string>, es: seq<ResEntry>): Option<seq<Line>>
  {
    if !simplified || d.pLevel == LevelBasic then
      if hasQuality && automatic.None? then None
      else
        Some([TranslationTitle(lang, "Resolution", Tr(po, "Resolution"))]
          + (if hasQuality then [Localized(lang, "Resolution", automatic.value, Tr(po, "Automatic"))] else [])
          + LocEntries(po, lang, es))
    else Some([])
  }

  /** The localized Resolution block, the automatic choice translated only when the main pass named one. */
  function LocResolution(simplified: bool, po: Catalog, lang: string, d: ParamDesc,
                         automatic: Option<string>, es: seq<ResEntry>): seq<Line>
  {
    if !simplified || d.pLevel == LevelBasic then
      [TranslationTitle(lang, "Resolution", Tr(po, "Resolution"))]
      + (if automatic.Some? then [Localized(lang, "Resolution", automatic.value, Tr(po, "Automatic"))] else [])
      + LocEntries(po, lang, es)
    else []
  }

  /** Where the code is defined, it writes what the corrected block writes. */
  lemma LocResolutionAgrees(simplified: bool, po: Catalog, lang: string, hasQuality: bool, d: ParamDesc,
                            automatic: Option<string>, es: seq<ResEntry>)
    requires automatic.Some? ==> hasQuality
    ensures LocResolutionAsWritten(simplified, po, lang, hasQuality, d, automatic, es).Some?
      <==> !(hasQuality && automatic.None? && (!simplified || d.pLevel == LevelBasic))
    ensures LocResolutionAsWritten(simplified, po, lang, hasQuality, d, automatic, es).Some? ==>
      LocResolutionAsWritten(simplified, po, lang, hasQuality, d, automatic, es).value == LocResolution(simplified, po, lang, d, automatic, es)
  {
    // Follows by unfolding `LocResolutionAsWritten`: it differs from `LocResolution` only in the unset-name branch.
  }

  /** A Quality parameter with an inactive Resolution parameter: the code formats an unset name. */
  lemma UnsetAutomaticName(po: Catalog, lang: string, d: ParamDesc)
    requires !d.isActive && d.pLevel == LevelBasic
    ensures ResolutionSection(false, Standard, po, SeedDriver(), true, "", d) == Some(ResOutput([], [], None))
    ensures LocResolutionAsWritten(false, po, lang, true, d, None, []).None?
  {
    // Follows by unfolding `ResolutionSection` on the inactive parameter and `LocResolutionAsWritten`.
  }

  /** The localized Resolution block (genppd.c:2612-2628), corrected: the automatic choice is
      translated only when the main pass named one (`LocResolutionAsWritten` is the code as written). */
  method LocalizeResolution(simplified: bool, po: Catalog, lang: string, d: ParamDesc,
                            automatic: Option<string>, es: seq<ResEntry>) returns (lines: seq<Line>)
    ensures lines == LocResolution(simplified, po, lang, d, automatic, es)
  {
    lines := [];
    if simplified && d.pLevel != LevelBasic {
      return;
    }
    var head := [TranslationTitle(lang, "Resolution", Tr(po, "Resolution"))];
    if automatic.Some? {
      head := head + [Localized(lang, "Resolution", automatic.value, Tr(po, "Automatic"))];
    }
    var body := [];
    var i := 0;
    while i < |es|
      invariant 0 <= i <= |es|
      invariant body == LocEntries(po, lang, es[..i])
    {
      assert es[..i + 1][..i] == es[..i];
      body := body + [Localized(lang, "Resolution", es[i].name, Tr(po, es[i].text))];
      i := i + 1;
    }
    assert es[..i] == es;
    lines := head + body;
  }

  lemma {:induction false} LocEntriesTranslate(po: Catalog, lang: string, es: seq<ResEntry>)
    ensures Translations(LocEntries(po, lang, es), lang, "Resolution") == EntryNames(es)
    decreases |es|
  {
    if |es| > 0 {
      var init := es[..|es| - 1];
      var e := es[|es| - 1];
      var l := Localized(lang, "Resolution", e.name, Tr(po, e.text));
      LocEntriesTranslate(po, lang, init);
      TranslationsAppend(LocEntries(po, lang, init), [l], lang, "Resolution");
      assert Translations([l], lang, "Resolution") == [e.name];
      assert init + [e] == es;
      EntryNamesSnoc(init, e);
    }
  }

  /** The localized block translates the automatic name, when there is one, then every entry's name. */
  lemma LocResolutionTranslations(simplified: bool, po: Catalog, lang: string, d: ParamDesc,
                                  automatic: Option<string>, es: seq<ResEntry>)
    ensures Translations(LocResolution(simplified, po, lang, d, automatic, es), lang, "Resolution")
      == if !simplified || d.pLevel == LevelBasic then (if automatic.Some? then [automatic.value] else []) + EntryNames(es) else []
  {
    if !simplified || d.pLevel == LevelBasic {
      var title := [TranslationTitle(lang, "Resolution", Tr(po, "Resolution"))];
      var auto := if automatic.Some? then [Localized(lang, "Resolution", automatic.value, Tr(po, "Automatic"))] else [];
      var rest := LocEntries(po, lang, es);
      assert LocResolution(simplified, po, lang, d, automatic, es) == title + auto + rest;
      LocTitleNothing(po, lang);
      LocAutomaticTranslates(po, lang, automatic);
      LocEntriesTranslate(po, lang, es);
      TranslationsBack(title, auto, rest, lang, "Resolution");
    }
  }

  lemma LocTitleNothing(po: Catalog, lang: string)
    ensures Translations([TranslationTitle(lang, "Resolution", Tr(po, "Resolution"))], lang, "Resolution") == []
  {
    assert "Translation" != "Resolution" by { assert |"Translation"| != |"Resolution"|; }
    TranslationsNone([TranslationTitle(lang, "Resolution", Tr(po, "Resolution"))], lang, "Resolution");
  }

  lemma LocAutomaticTranslates(po: Catalog, lang: string, automatic: Option<string>)
    ensures Translations(if automatic.Some? then [Localized(lang, "Resolution", automatic.value, Tr(po, "Automatic"))] else [], lang, "Resolution")
      == if automatic.Some? then [automatic.value] else []
  {
  }

  /** Every resolution name the main pass declares is translated, in order, and nothing else is. */
  lemma ResolutionParity(simplified: bool, t: PpdType, po: Catalog, lpo: Catalog, lang: string, drv: Driver,
                         hasQuality: bool, qualityDefault: string, d: ParamDesc)
    requires ResolutionSection(simplified, t, po, drv, hasQuality, qualityDefault, d).Some?
    ensures var out := ResolutionSection(simplified, t, po, drv, hasQuality, qualityDefault, d).value;
      Translations(LocResolution(simplified, lpo, lang, d, out.automatic, out.entries), lang, "Resolution")
        == Declarations(out.lines, "Resolution")
  {
    var out := ResolutionSection(simplified, t, po, drv, hasQuality, qualityDefault, d).value;
    LocResolutionTranslations(simplified, lpo, lang, d, out.automatic, out.entries);
    if ResolutionShown(simplified, d) {
      SectionDeclarations(t, po, drv, hasQuality, qualityDefault, d, ReservedName(drv, hasQuality, qualityDefault, d));
    }
  }
}
