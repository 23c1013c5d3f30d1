/** The media-size sections of a PPD (`print_page_sizes`): the papers a driver offers, their
    imageable areas and dimensions, and the custom-size limits; and the translations of the
    paper names written by the localization pass. */
module PageSizes {
  import opened Text
  import opened Ppd
  import opened Options

  /** The unit family of a paper in the paper table; the extended families hold the
      rarely used sizes. */
  datatype PaperUnit = English | Metric | EnglishExtended | MetricExtended

  /** An entry of the paper table (`stp_get_papersize_by_name`). */
  datatype PaperSize = PaperSize(width: int, height: int, unit: PaperUnit)

  /** What the driver reports for a page size once it is selected: the media size
      (`stp_get_media_size`) and the largest imageable area (`stp_get_maximum_imageable_area`). */
  datatype Probe = Probe(width: int, height: int, left: int, right: int, bottom: int, top: int)

  /** The custom-size limits (`stp_get_size_limit`). */
  datatype SizeLimit = SizeLimit(maxWidth: int, maxHeight: int, minWidth: int, minHeight: int)

  /** A stored paper (`paper_t`): bottom and top are distances from the top edge. */
  datatype Paper = Paper(name: string, text: string, width: int, height: int, left: int, right: int, bottom: int, top: int)

  /** The library as far as this section asks it. */
  datatype Library = Library(paperOf: string -> Option<PaperSize>, probe: string -> Probe, limits: SizeLimit)

  function Min(a: int, b: int): int { if a < b then a else b }
  function Max(a: int, b: int): int { if a < b then b else a }

  predicate Extended(u: PaperUnit) { u == EnglishExtended || u == MetricExtended }

  /** Whether the entry `opt` of a list of `count` sizes is stored: it must be in the paper
      table, not be "Custom", not be an extended size of a long list in a simplified PPD, and
      have a positive table size. */
  predicate Stored(simplified: bool, count: nat, lib: Library, opt: StringOpt)
  {
    && lib.paperOf(opt.name).Some?
    && opt.name != "Custom"
    && !(simplified && count >= 10 && Extended(lib.paperOf(opt.name).value.unit))
    && lib.paperOf(opt.name).value.width > 0 && lib.paperOf(opt.name).value.height > 0
  }

  /** The stored form of a paper: margins clamped into the sheet on the left and right,
      bottom clamped down to the sheet and top up to 0, then both turned into distances. */
  function StorePaper(po: Catalog, opt: StringOpt, p: Probe): (r: Paper)
    ensures r.left >= 0 && r.right <= r.width
  {
    var left := if p.left < 0 then 0 else p.left;
    var right := if p.right > p.width then p.width else p.right;
    var bottom := if p.bottom > p.height then p.height else p.bottom;
    var top := if p.top < 0 then 0 else p.top;
    Paper(opt.name, Tr(po, opt.text), p.width, p.height, left, right, p.height - bottom, p.height - top)
  }

  /** The papers `print_page_sizes` stores from the entries `cs` of a list of `count`. */
  function StoredPapers(simplified: bool, count: nat, po: Catalog, lib: Library, cs: seq<StringOpt>): (ps: seq<Paper>)
    ensures |ps| <= |cs|
  {
    if |cs| == 0 then []
    else
      var last := cs[|cs| - 1];
      StoredPapers(simplified, count, po, lib, cs[..|cs| - 1])
      + (if Stored(simplified, count, lib, last) then [StorePaper(po, last, lib.probe(last.name))] else [])
  }

  /** Whether the list offers custom sizes: a "Custom" entry that the paper table knows. */
  predicate VariableSizes(lib: Library, cs: seq<StringOpt>)
  {
    exists k :: 0 <= k < |cs| && cs[k].name == "Custom" && lib.paperOf("Custom").Some?
  }

  // ----- What is stored -----

  /** `p` is the stored form of the entry `opt`, which passes the filter. */
  predicate StoredAs(simplified: bool, count: nat, po: Catalog, lib: Library, opt: StringOpt, p: Paper)
  {
    Stored(simplified, count, lib, opt) && p == StorePaper(po, opt, lib.probe(opt.name))
  }

  /** Each stored paper is an entry of the list that passes the filter, in its stored form,
      and every entry that passes the filter is stored (`StoredPapersAtIndices` gives the order). */
  lemma StoredPapersExact(simplified: bool, count: nat, po: Catalog, lib: Library, cs: seq<StringOpt>)
    ensures var ps := StoredPapers(simplified, count, po, lib, cs);
      forall k :: 0 <= k < |ps| ==> exists j :: 0 <= j < |cs| && StoredAs(simplified, count, po, lib, cs[j], ps[k])
    ensures forall j :: 0 <= j < |cs| && Stored(simplified, count, lib, cs[j]) ==>
               StorePaper(po, cs[j], lib.probe(cs[j].name)) in StoredPapers(simplified, count, po, lib, cs)
    ensures (forall j :: 0 <= j < |cs| ==> Stored(simplified, count, lib, cs[j]))
      ==> |StoredPapers(simplified, count, po, lib, cs)| == |cs|
    ensures (forall j :: 0 <= j < |cs| ==> !Stored(simplified, count, lib, cs[j]))
      ==> StoredPapers(simplified, count, po, lib, cs) == []
  {
    var ps := StoredPapers(simplified, count, po, lib, cs);
    forall k | 0 <= k < |ps|
      ensures exists j :: 0 <= j < |cs| && StoredAs(simplified, count, po, lib, cs[j], ps[k])
    {
      var j := StoredPaperSource(simplified, count, po, lib, cs, k);
    }
    StoredPapersComplete(simplified, count, po, lib, cs);
    if forall j :: 0 <= j < |cs| ==> Stored(simplified, count, lib, cs[j]) {
      AllStoredKept(simplified, count, po, lib, cs);
    }
    if forall j :: 0 <= j < |cs| ==> !Stored(simplified, count, lib, cs[j]) {
      NoneStoredEmpty(simplified, count, po, lib, cs);
    }
  }

  /** Every entry that passes the filter is stored. */
  lemma StoredPapersComplete(simplified: bool, count: nat, po: Catalog, lib: Library, cs: seq<StringOpt>)
    ensures forall j :: 0 <= j < |cs| && Stored(simplified, count, lib, cs[j]) ==>
               StorePaper(po, cs[j], lib.probe(cs[j].name)) in StoredPapers(simplified, count, po, lib, cs)
  {
    var idx := StoredIndices(simplified, count, lib, cs);
    var ps := StoredPapers(simplified, count, po, lib, cs);
    StoredIndicesExact(simplified, count, lib, cs);
    StoredPapersAtIndices(simplified, count, po, lib, cs);
    forall j | 0 <= j < |cs| && Stored(simplified, count, lib, cs[j])
      ensures StorePaper(po, cs[j], lib.probe(cs[j].name)) in ps
    {
      var k :| 0 <= k < |idx| && idx[k] == j;
      assert ps[k] == StorePaper(po, cs[j], lib.probe(cs[j].name));
    }
  }

  /** The k-th stored paper is the stored form of some entry of the list. */
  lemma {:induction false} StoredPaperSource(simplified: bool, count: nat, po: Catalog, lib: Library, cs: seq<StringOpt>, k: nat) returns (j: nat)
    requires k < |StoredPapers(simplified, count, po, lib, cs)|
    ensures j < |cs| && StoredAs(simplified, count, po, lib, cs[j], StoredPapers(simplified, count, po, lib, cs)[k])
    decreases |cs|
  {
    var init := cs[..|cs| - 1];
    var qs := StoredPapers(simplified, count, po, lib, init);
    if k < |qs| {
      j := StoredPaperSource(simplified, count, po, lib, init, k);
      assert init[j] == cs[j];
    } else {
      j := |cs| - 1;
    }
  }

  lemma {:induction false} AllStoredKept(simplified: bool, count: nat, po: Catalog, lib: Library, cs: seq<StringOpt>)
    requires forall j :: 0 <= j < |cs| ==> Stored(simplified, count, lib, cs[j])
    ensures |StoredPapers(simplified, count, po, lib, cs)| == |cs|
    decreases |cs|
  {
    if |cs| > 0 {
      var init := cs[..|cs| - 1];
      assert forall j :: 0 <= j < |init| ==> init[j] == cs[j];
      AllStoredKept(simplified, count, po, lib, init);
      assert Stored(simplified, count, lib, cs[|cs| - 1]);
    }
  }

  lemma {:induction false} NoneStoredEmpty(simplified: bool, count: nat, po: Catalog, lib: Library, cs: seq<StringOpt>)
    requires forall j :: 0 <= j < |cs| ==> !Stored(simplified, count, lib, cs[j])
    ensures StoredPapers(simplified, count, po, lib, cs) == []
    decreases |cs|
  {
    if |cs| > 0 {
      var init := cs[..|cs| - 1];
      assert forall j :: 0 <= j < |init| ==> init[j] == cs[j];
      NoneStoredEmpty(simplified, count, po, lib, init);
      assert !Stored(simplified, count, lib, cs[|cs| - 1]);
    }
  }

  /** The positions of the entries of `cs` that pass the filter. */
  function StoredIndices(simplified: bool, count: nat, lib: Library, cs: seq<StringOpt>): seq<nat>
  {
    if |cs| == 0 then []
    else
      StoredIndices(simplified, count, lib, cs[..|cs| - 1])
      + (if Stored(simplified, count, lib, cs[|cs| - 1]) then [|cs| - 1] else [])
  }

  /** Those positions are ascending and are exactly the entries that pass the filter. */
  lemma {:induction false} StoredIndicesExact(simplified: bool, count: nat, lib: Library, cs: seq<StringOpt>)
    ensures var idx := StoredIndices(simplified, count, lib, cs);
      && (forall k :: 0 <= k < |idx| ==> idx[k] < |cs|)
      && (forall k, l :: 0 <= k < l < |idx| ==> idx[k] < idx[l])
      && (forall j :: 0 <= j < |cs| ==> (j in idx <==> Stored(simplified, count, lib, cs[j])))
    decreases |cs|
  {
    if |cs| > 0 {
      var init := cs[..|cs| - 1];
      StoredIndicesExact(simplified, count, lib, init);
      assert forall j :: 0 <= j < |init| ==> init[j] == cs[j];
    }
  }

  /** The stored papers, in order, are the stored forms of the entries at those positions. */
  lemma {:induction false} StoredPapersAtIndices(simplified: bool, count: nat, po: Catalog, lib: Library, cs: seq<StringOpt>)
    ensures var idx := StoredIndices(simplified, count, lib, cs);
      var ps := StoredPapers(simplified, count, po, lib, cs);
      |ps| == |idx|
      && forall k :: 0 <= k < |idx| ==> idx[k] < |cs| && ps[k] == StorePaper(po, cs[idx[k]], lib.probe(cs[idx[k]].name))
    decreases |cs|
  {
    if |cs| > 0 {
      var init := cs[..|cs| - 1];
      var last := cs[|cs| - 1];
      StoredPapersAtIndices(simplified, count, po, lib, init);
      var idx0, ps0 := StoredIndices(simplified, count, lib, init), StoredPapers(simplified, count, po, lib, init);
      var idx, ps := StoredIndices(simplified, count, lib, cs), StoredPapers(simplified, count, po, lib, cs);
      var stored := Stored(simplified, count, lib, last);
      assert idx == idx0 + (if stored then [|cs| - 1] else []);
      assert ps == ps0 + (if stored then [StorePaper(po, last, lib.probe(last.name))] else []);
      forall k | 0 <= k < |idx|
        ensures idx[k] < |cs| && ps[k] == StorePaper(po, cs[idx[k]], lib.probe(cs[idx[k]].name))
      {
        if k < |idx0| {
          assert idx[k] == idx0[k] && ps[k] == ps0[k];
          assert cs[idx0[k]] == init[idx0[k]];
        }
      }
    }
  }

  /** No stored paper is "Custom", and each keeps its margins inside the sheet as the
      clamps promise, with bottom and top stored relative to the height. */
  lemma StoredPaperShape(simplified: bool, count: nat, po: Catalog, lib: Library, cs: seq<StringOpt>, k: nat)
    requires k < |StoredPapers(simplified, count, po, lib, cs)|
    ensures var p := StoredPapers(simplified, count, po, lib, cs)[k];
      var pr := lib.probe(p.name);
      && p.name != "Custom"
      && lib.paperOf(p.name).Some? && lib.paperOf(p.name).value.width > 0 && lib.paperOf(p.name).value.height > 0
      && p.width == pr.width && p.height == pr.height
      && p.left == Max(pr.left, 0) && p.left >= 0
      && p.right == Min(pr.right, pr.width) && p.right <= p.width
      && p.bottom == p.height - Min(pr.bottom, p.height)
      && p.top == p.height - Max(pr.top, 0)
  {
    // A corollary of the soundness half of `StoredPapersExact`, read off at index `k`.
    StoredPapersExact(simplified, count, po, lib, cs);
  }

  // ----- Filling the table -----

  function Blank(i: int): Paper { Paper("", "", 0, 0, 0, 0, 0, 0) }

  /** One more entry of the list: it adds its stored form when it passes the filter, and a
      "Custom" entry the paper table knows turns on custom sizes. */
  lemma FillStep(simplified: bool, count: nat, po: Catalog, lib: Library, cs: seq<StringOpt>, i: nat)
    requires i < |cs|
    ensures StoredPapers(simplified, count, po, lib, cs[..i + 1]) == StoredPapers(simplified, count, po, lib, cs[..i])
      + (if Stored(simplified, count, lib, cs[i]) then [StorePaper(po, cs[i], lib.probe(cs[i].name))] else [])
    ensures VariableSizes(lib, cs[..i + 1]) <==> VariableSizes(lib, cs[..i]) || (cs[i].name == "Custom" && lib.paperOf("Custom").Some?)
  {
    assert cs[..i + 1][..i] == cs[..i];
    assert cs[..i + 1][i] == cs[i];
    if VariableSizes(lib, cs[..i + 1]) && !VariableSizes(lib, cs[..i]) {
      var k :| 0 <= k < i + 1 && cs[..i + 1][k].name == "Custom" && lib.paperOf("Custom").Some?;
      assert k == i;
    }
  }

  /** `the_papers[cur] = …`: the stored prefix grows by one paper. */
  method SetPaper(papers: array<Paper>, cur: nat, p: Paper)
    requires cur < papers.Length
    modifies papers
    ensures papers[..cur + 1] == old(papers[..cur]) + [p]
  {
    papers[cur] := p;
  }

  /** The first loop of `print_page_sizes`: fills `the_papers` through the `cur` counter
      and notes whether a custom size is offered. */
  method FillPapers(simplified: bool, po: Catalog, lib: Library, cs: seq<StringOpt>)
    returns (papers: array<Paper>, cur: nat, variableSizes: bool)
    ensures fresh(papers) && cur <= papers.Length == |cs|
    ensures papers[..cur] == StoredPapers(simplified, |cs|, po, lib, cs)
    ensures variableSizes == VariableSizes(lib, cs)
  {
    papers := new Paper[|cs|](Blank);
    cur := 0;
    variableSizes := false;
    var i := 0;
    while i < |cs|
      invariant 0 <= cur <= i <= |cs|
      invariant papers[..cur] == StoredPapers(simplified, |cs|, po, lib, cs[..i])
      invariant variableSizes == VariableSizes(lib, cs[..i])
    {
      var opt := cs[i];
      FillStep(simplified, |cs|, po, lib, cs, i);
      var papersize := lib.paperOf(opt.name);
      if papersize.None? {
      } else if opt.name == "Custom" {
        variableSizes := true;
      } else if simplified && |cs| >= 10 && Extended(papersize.value.unit) {
      } else if papersize.value.width <= 0 || papersize.value.height <= 0 {
      } else {
        var p := lib.probe(opt.name);
        var left, right, bottom, top := p.left, p.right, p.bottom, p.top;
        if left < 0 { left := 0; }
        if right > p.width { right := p.width; }
        if bottom > p.height { bottom := p.height; }
        if top < 0 { top := 0; }
        assert Paper(opt.name, Tr(po, opt.text), p.width, p.height, left, right, p.height - bottom, p.height - top)
          == StorePaper(po, opt, p);
        SetPaper(papers, cur, Paper(opt.name, Tr(po, opt.text), p.width, p.height, left, right, p.height - bottom, p.height - top));
        cur := cur + 1;
      }
      i := i + 1;
    }
    assert cs[..i] == cs;
  }

  // ----- The four tables -----

  /** "*PageSize" and "*PageRegion" entries: the size as a setpagedevice call. */
  function SizeCode(p: Paper): string
  {
    "\t\"<</PageSize[" + IntToString(p.width) + " " + IntToString(p.height) + "]/ImagingBBox null>>setpagedevice\""
  }

  function AreaCode(p: Paper): string
  {
    "\t\"" + IntToString(p.left) + " " + IntToString(p.bottom) + " " + IntToString(p.right) + " " + IntToString(p.top) + "\""
  }

  function DimensionCode(p: Paper): string
  {
    "\t\"" + IntToString(p.width) + " " + IntToString(p.height) + "\""
  }

  /** The kinds of table printed from the stored papers. */
  datatype Table = SizeTable | RegionTable | AreaTable | DimensionTable

  function TableKeyword(t: Table): string
  {
    match t
    case SizeTable => "PageSize"
    case RegionTable => "PageRegion"
    case AreaTable => "ImageableArea"
    case DimensionTable => "PaperDimension"
  }

  function Entry(t: Table, p: Paper): Line
  {
    var code := match t
      case SizeTable => SizeCode(p)
      case RegionTable => SizeCode(p)
      case AreaTable => AreaCode(p)
      case DimensionTable => DimensionCode(p);
    Choice(false, TableKeyword(t), p.name, p.text, code)
  }

  /** One entry per stored paper, in order. */
  function Entries(t: Table, ps: seq<Paper>): seq<Line>
  {
    if |ps| == 0 then [] else Entries(t, ps[..|ps| - 1]) + [Entry(t, ps[|ps| - 1])]
  }

  /** A loop `for (i = 0; i < cur_opt; i++)` over the table. */
  method PrintEntries(t: Table, papers: array<Paper>, cur: nat) returns (lines: seq<Line>)
    requires cur <= papers.Length
    ensures lines == Entries(t, papers[..cur])
  {
    lines := [];
    var i := 0;
    while i < cur
      invariant i <= cur
      invariant lines == Entries(t, papers[..i])
    {
      assert papers[..i + 1][..i] == papers[..i];
      lines := lines + [Entry(t, papers[i])];
      i := i + 1;
    }
  }

  /** The opening of the PageSize or PageRegion option. */
  function TableHead(key: string, po: Catalog, d: ParamDesc): seq<Line>
  {
    (if d.isColor then [Plain("*ColorKeyWords: \"" + key + "\"\n")] else [])
    + [Choice(false, "OpenUI", "*" + key, Tr(po, "Media Size"), " PickOne"),
       Plain("*OPOptionHints " + key + ": \"dropdown\"\n"),
       Plain("*OrderDependency: 10 AnySetup *" + key + "\n")]
  }

  /** The custom-size block: the limits, the hardware margins and the custom parameters. */
  function CustomLines(lim: SizeLimit, p: Probe): seq<Line>
  {
    PlainLines(CustomTexts(lim, p))
  }

  function CustomTexts(lim: SizeLimit, p: Probe): seq<string>
  {
    var m := CustomMargins(p);
    ["*MaxMediaWidth:  \"" + IntToString(lim.maxWidth) + "\"\n",
     "*MaxMediaHeight: \"" + IntToString(lim.maxHeight) + "\"\n",
     HWMargins(m.0, m.1, m.2, m.3),
     "*CustomPageSize True: \"pop pop pop <</PageSize[5 -2 roll]/ImagingBBox null>>setpagedevice\"\n",
     "*ParamCustomPageSize Width:        1 points " + IntToString(lim.minWidth) + " " + IntToString(lim.maxWidth) + "\n",
     "*ParamCustomPageSize Height:       2 points " + IntToString(lim.minHeight) + " " + IntToString(lim.maxHeight) + "\n",
     "*ParamCustomPageSize WidthOffset:  3 points 0 0\n",
     "*ParamCustomPageSize HeightOffset: 4 points 0 0\n",
     "*ParamCustomPageSize Orientation:  5 int 0 0\n\n"]
  }

  /** The custom-size block of a driver, from its limits and the margins of its "Custom" size. */
  function CustomSection(lib: Library): seq<Line>
  {
    CustomLines(lib.limits, lib.probe("Custom"))
  }

  function HWMargins(left: int, bottom: int, right: int, top: int): string
  {
    "*HWMargins:      " + IntToString(left) + " " + IntToString(bottom) + " " + IntToString(right) + " " + IntToString(top) + "\n"
  }

  /** The margins of the custom-size block: left, bottom, right and top. */
  function CustomMargins(p: Probe): (int, int, int, int)
  {
    var left := if p.left < 0 then 0 else p.left;
    var top := if p.top < 0 then 0 else p.top;
    var bottom := if p.bottom > p.height then p.height else p.bottom;
    var width := if p.right > p.width then p.right else p.width;
    (left, p.height - bottom, width - p.right, top)
  }

  /** The hardware margins of the custom-size block are never negative, and each is the
      reported margin when that one is already inside the sheet. */
  lemma CustomMarginsFacts(p: Probe)
    ensures var m := CustomMargins(p);
      m.0 >= 0 && m.1 >= 0 && m.2 >= 0 && m.3 >= 0
      && (0 <= p.left ==> m.0 == p.left) && (p.bottom <= p.height ==> m.1 == p.height - p.bottom)
      && (p.right <= p.width ==> m.2 == p.width - p.right) && (0 <= p.top ==> m.3 == p.top)
      && m.2 == Max(p.width - p.right, 0)
  {
  }

  /** The PageSize option. */
  function SizeSection(po: Catalog, d: ParamDesc, ps: seq<Paper>): seq<Line>
    requires d.bounds.ListBounds?
  {
    TableHead("PageSize", po, d) + [Fields(d, 0, 0, 0)] + Defaults("PageSize", d.bounds.deflt)
    + Entries(SizeTable, ps) + [CloseUI("PageSize")]
  }

  /** The PageRegion option: the same sizes again. */
  function RegionSection(po: Catalog, d: ParamDesc, ps: seq<Paper>): seq<Line>
    requires d.bounds.ListBounds?
  {
    TableHead("PageRegion", po, d) + Defaults("PageRegion", d.bounds.deflt)
    + Entries(RegionTable, ps) + [CloseUI("PageRegion")]
  }

  function AreaSection(d: ParamDesc, ps: seq<Paper>): seq<Line>
    requires d.bounds.ListBounds?
  {
    Defaults("ImageableArea", d.bounds.deflt) + Entries(AreaTable, ps) + [Plain("\n")]
  }

  function DimensionSection(d: ParamDesc, ps: seq<Paper>): seq<Line>
    requires d.bounds.ListBounds?
  {
    Defaults("PaperDimension", d.bounds.deflt) + Entries(DimensionTable, ps) + [Plain("\n")]
  }

  function VariableLine(variableSizes: bool): Line
  {
    Plain("*VariablePaperSize: " + (if variableSizes then "true" else "false") + "\n\n")
  }

  /** Everything `print_page_sizes` writes, from the stored papers. */
  function PageSizeLines(po: Catalog, lib: Library, d: ParamDesc, ps: seq<Paper>, variableSizes: bool): seq<Line>
    requires d.bounds.ListBounds?
  {
    [VariableLine(variableSizes)] + SizeSection(po, d, ps) + RegionSection(po, d, ps) + AreaSection(d, ps)
    + DimensionSection(d, ps) + (if variableSizes then CustomSection(lib) else [])
  }

  /** `print_page_sizes` for the PageSize parameter `d`. */
  method PrintPageSizes(simplified: bool, po: Catalog, lib: Library, d: ParamDesc) returns (lines: seq<Line>)
    requires d.bounds.ListBounds?
    ensures lines == PageSizeLines(po, lib, d, StoredPapers(simplified, |d.bounds.choices|, po, lib, d.bounds.choices),
      VariableSizes(lib, d.bounds.choices))
  {
    var deflt := d.bounds.deflt;
    var papers, cur, variableSizes := FillPapers(simplified, po, lib, d.bounds.choices);
    ghost var ps := papers[..cur];
    var sizes := PrintEntries(SizeTable, papers, cur);
    var sizeSection := TableHead("PageSize", po, d) + [Fields(d, 0, 0, 0)] + Defaults("PageSize", deflt) + sizes + [CloseUI("PageSize")];
    var regions := PrintEntries(RegionTable, papers, cur);
    var regionSection := TableHead("PageRegion", po, d) + Defaults("PageRegion", deflt) + regions + [CloseUI("PageRegion")];
    var areas := PrintEntries(AreaTable, papers, cur);
    var areaSection := Defaults("ImageableArea", deflt) + areas + [Plain("\n")];
    var dimensions := PrintEntries(DimensionTable, papers, cur);
    var dimensionSection := Defaults("PaperDimension", deflt) + dimensions + [Plain("\n")];
    var custom := if variableSizes then CustomSection(lib) else [];
    lines := [VariableLine(variableSizes)] + sizeSection + regionSection + areaSection + dimensionSection + custom;
  }

  // ----- The four tables agree -----

  function PaperNames(ps: seq<Paper>): (ns: seq<string>)
    ensures |ns| == |ps| && forall k :: 0 <= k < |ps| ==> ns[k] == ps[k].name
  {
    if |ps| == 0 then [] else PaperNames(ps[..|ps| - 1]) + [ps[|ps| - 1].name]
  }

  lemma {:induction false} EntriesDeclare(t: Table, ps: seq<Paper>, kw: string)
    ensures Declarations(Entries(t, ps), kw) == if kw == TableKeyword(t) then PaperNames(ps) else []
    decreases |ps|
  {
    if |ps| > 0 {
      var init := ps[..|ps| - 1];
      EntriesDeclare(t, init, kw);
      DeclarationsAppend(Entries(t, init), [Entry(t, ps[|ps| - 1])], kw);
    }
  }

  /** The four table keywords are distinct. */
  lemma KeywordsDistinct(t: Table, u: Table)
    ensures TableKeyword(t) == TableKeyword(u) <==> t == u
  {
    if t != u {
      assert |TableKeyword(t)| != |TableKeyword(u)|;
    }
  }

  /** The opening of a table declares no choice under a table keyword. */
  lemma TableHeadNone(key: string, po: Catalog, d: ParamDesc, u: Table)
    ensures Declarations(TableHead(key, po, d), TableKeyword(u)) == []
  {
    assert |TableKeyword(u)| != |"OpenUI"|;
    DeclarationsNone(TableHead(key, po, d), TableKeyword(u));
  }

  /** Everything of the PageSize option before its entries declares nothing under a table keyword. */
  lemma SizeHeadNone(po: Catalog, d: ParamDesc, u: Table)
    requires d.bounds.ListBounds?
    ensures Declarations(TableHead("PageSize", po, d) + [Fields(d, 0, 0, 0)] + Defaults("PageSize", d.bounds.deflt), TableKeyword(u)) == []
  {
    var kw := TableKeyword(u);
    TableHeadNone("PageSize", po, d, u);
    DeclarationsNone([Fields(d, 0, 0, 0)] + Defaults("PageSize", d.bounds.deflt), kw);
    AppendAssoc(TableHead("PageSize", po, d), [Fields(d, 0, 0, 0)], Defaults("PageSize", d.bounds.deflt));
    DeclarationsAppend(TableHead("PageSize", po, d), [Fields(d, 0, 0, 0)] + Defaults("PageSize", d.bounds.deflt), kw);
  }

  /** A closing line declares nothing. */
  lemma CloseNone(key: string, kw: string)
    ensures Declarations([CloseUI(key)], kw) == []
  {
    DeclarationsNone([CloseUI(key)], kw);
  }

  lemma SizeSectionDeclares(po: Catalog, d: ParamDesc, ps: seq<Paper>, u: Table)
    requires d.bounds.ListBounds?
    ensures Declarations(SizeSection(po, d, ps), TableKeyword(u)) == if u == SizeTable then PaperNames(ps) else []
  {
    var kw := TableKeyword(u);
    SizeHeadNone(po, d, u);
    EntriesDeclare(SizeTable, ps, kw);
    KeywordsDistinct(u, SizeTable);
    CloseNone("PageSize", kw);
    Declarations3(TableHead("PageSize", po, d) + [Fields(d, 0, 0, 0)] + Defaults("PageSize", d.bounds.deflt),
      Entries(SizeTable, ps), [CloseUI("PageSize")], kw);
  }

  /** Everything of the PageRegion option before its entries declares nothing under a table keyword. */
  lemma RegionHeadNone(po: Catalog, d: ParamDesc, u: Table)
    requires d.bounds.ListBounds?
    ensures Declarations(TableHead("PageRegion", po, d) + Defaults("PageRegion", d.bounds.deflt), TableKeyword(u)) == []
  {
    var kw := TableKeyword(u);
    TableHeadNone("PageRegion", po, d, u);
    DeclarationsNone(Defaults("PageRegion", d.bounds.deflt), kw);
    DeclarationsAppend(TableHead("PageRegion", po, d), Defaults("PageRegion", d.bounds.deflt), kw);
  }

  lemma RegionSectionDeclares(po: Catalog, d: ParamDesc, ps: seq<Paper>, u: Table)
    requires d.bounds.ListBounds?
    ensures Declarations(RegionSection(po, d, ps), TableKeyword(u)) == if u == RegionTable then PaperNames(ps) else []
  {
    var kw := TableKeyword(u);
    RegionHeadNone(po, d, u);
    EntriesDeclare(RegionTable, ps, kw);
    KeywordsDistinct(u, RegionTable);
    CloseNone("PageRegion", kw);
    Declarations3(TableHead("PageRegion", po, d) + Defaults("PageRegion", d.bounds.deflt),
      Entries(RegionTable, ps), [CloseUI("PageRegion")], kw);
  }

  lemma AreaSectionDeclares(d: ParamDesc, ps: seq<Paper>, u: Table)
    requires d.bounds.ListBounds?
    ensures Declarations(AreaSection(d, ps), TableKeyword(u)) == if u == AreaTable then PaperNames(ps) else []
  {
    var kw := TableKeyword(u);
    DeclarationsNone(Defaults("ImageableArea", d.bounds.deflt), kw);
    EntriesDeclare(AreaTable, ps, kw);
    KeywordsDistinct(u, AreaTable);
    DeclarationsNone([Plain("\n")], kw);
    Declarations3(Defaults("ImageableArea", d.bounds.deflt), Entries(AreaTable, ps), [Plain("\n")], kw);
  }

  lemma DimensionSectionDeclares(d: ParamDesc, ps: seq<Paper>, u: Table)
    requires d.bounds.ListBounds?
    ensures Declarations(DimensionSection(d, ps), TableKeyword(u)) == if u == DimensionTable then PaperNames(ps) else []
  {
    var kw := TableKeyword(u);
    DeclarationsNone(Defaults("PaperDimension", d.bounds.deflt), kw);
    EntriesDeclare(DimensionTable, ps, kw);
    KeywordsDistinct(u, DimensionTable);
    DeclarationsNone([Plain("\n")], kw);
    Declarations3(Defaults("PaperDimension", d.bounds.deflt), Entries(DimensionTable, ps), [Plain("\n")], kw);
  }

  lemma CustomDeclaresNothing(lib: Library, variableSizes: bool, kw: string)
    ensures Declarations(if variableSizes then CustomSection(lib) else [], kw) == []
  {
    PlainLinesNone(CustomTexts(lib.limits, lib.probe("Custom")), "", kw);
  }

  lemma VariableDeclaresNothing(variableSizes: bool, kw: string)
    ensures Declarations([VariableLine(variableSizes)], kw) == []
  {
    DeclarationsNone([VariableLine(variableSizes)], kw);
  }

  /** Exactly one of the four sections declares under the keyword of `t`. */
  lemma SectionsDeclare(po: Catalog, d: ParamDesc, ps: seq<Paper>, t: Table)
    requires d.bounds.ListBounds?
    ensures var kw := TableKeyword(t);
      Declarations(SizeSection(po, d, ps), kw) + Declarations(RegionSection(po, d, ps), kw)
      + Declarations(AreaSection(d, ps), kw) + Declarations(DimensionSection(d, ps), kw) == PaperNames(ps)
  {
    var kw := TableKeyword(t);
    SizeSectionDeclares(po, d, ps, t);
    RegionSectionDeclares(po, d, ps, t);
    AreaSectionDeclares(d, ps, t);
    DimensionSectionDeclares(d, ps, t);
    OneOfFour(Declarations(SizeSection(po, d, ps), kw), Declarations(RegionSection(po, d, ps), kw),
      Declarations(AreaSection(d, ps), kw), Declarations(DimensionSection(d, ps), kw), PaperNames(ps), t);
  }

  /** Four parts of which only the one for `t` is non-empty add up to that one. */
  lemma OneOfFour(a: seq<string>, b: seq<string>, c: seq<string>, e: seq<string>, ns: seq<string>, t: Table)
    requires a == (if t == SizeTable then ns else []) && b == (if t == RegionTable then ns else [])
    requires c == (if t == AreaTable then ns else []) && e == (if t == DimensionTable then ns else [])
    ensures a + b + c + e == ns
  {
    match t
    case SizeTable => assert a + b + c + e == ns + [] + [] + [];
    case RegionTable => assert a + b + c + e == [] + ns + [] + [];
    case AreaTable => assert a + b + c + e == [] + [] + ns + [];
    case DimensionTable => assert a + b + c + e == [] + [] + [] + ns;
  }

  /** Declarations of a six-part concatenation whose outer parts declare nothing. */
  lemma Declarations6(v: seq<Line>, a: seq<Line>, b: seq<Line>, c: seq<Line>, e: seq<Line>, f: seq<Line>, kw: string)
    requires Declarations(v, kw) == [] && Declarations(f, kw) == []
    ensures Declarations(v + a + b + c + e + f, kw)
      == Declarations(a, kw) + Declarations(b, kw) + Declarations(c, kw) + Declarations(e, kw)
  {
    Declarations3(v, a, b, kw);
    Declarations3(v + a + b, c, e, kw);
    DeclarationsAppend(v + a + b + c + e, f, kw);
  }

  /** PageSize, PageRegion, ImageableArea and PaperDimension list the same papers, the
      stored ones, in the same order. */
  lemma TablesAgree(po: Catalog, lib: Library, d: ParamDesc, ps: seq<Paper>, variableSizes: bool, t: Table)
    requires d.bounds.ListBounds?
    ensures Declarations(PageSizeLines(po, lib, d, ps, variableSizes), TableKeyword(t)) == PaperNames(ps)
  {
    var kw := TableKeyword(t);
    VariableDeclaresNothing(variableSizes, kw);
    CustomDeclaresNothing(lib, variableSizes, kw);
    SectionsDeclare(po, d, ps, t);
    Declarations6([VariableLine(variableSizes)], SizeSection(po, d, ps), RegionSection(po, d, ps), AreaSection(d, ps),
      DimensionSection(d, ps), if variableSizes then CustomSection(lib) else [], kw);
  }

  lemma NoCustomStored(simplified: bool, count: nat, po: Catalog, lib: Library, cs: seq<StringOpt>)
    ensures "Custom" !in PaperNames(StoredPapers(simplified, count, po, lib, cs))
  {
    var ps := StoredPapers(simplified, count, po, lib, cs);
    forall k | 0 <= k < |ps|
      ensures PaperNames(ps)[k] != "Custom"
    {
      StoredPaperShape(simplified, count, po, lib, cs, k);
    }
  }

  // ----- Translations of the paper names -----

  /** Whether the localization pass translates the entry `opt`: like `Stored`, except that
      "Custom" is translated, and translated even when the table gives it no positive size. */
  predicate Translated(simplified: bool, count: nat, lib: Library, opt: StringOpt)
  {
    && lib.paperOf(opt.name).Some?
    && !(simplified && count >= 10 && Extended(lib.paperOf(opt.name).value.unit))
    && ((lib.paperOf(opt.name).value.width > 0 && lib.paperOf(opt.name).value.height > 0) || opt.name == "Custom")
  }

  /** The two translation lines of one paper. */
  function PaperTranslation(po: Catalog, lang: string, opt: StringOpt): seq<Line>
  {
    [Localized(lang, "PageSize", opt.name, Tr(po, opt.text)), Localized(lang, "PageRegion", opt.name, Tr(po, opt.text))]
  }

  /** The translation lines of the entries `cs` of a list of `count`, in order. */
  function PaperTranslations(simplified: bool, count: nat, po: Catalog, lib: Library, lang: string, cs: seq<StringOpt>): seq<Line>
  {
    if |cs| == 0 then []
    else
      var last := cs[|cs| - 1];
      PaperTranslations(simplified, count, po, lib, lang, cs[..|cs| - 1])
      + (if Translated(simplified, count, lib, last) then PaperTranslation(po, lang, last) else [])
  }

  /** What the localization pass writes for PageSize and PageRegion into `lang`. */
  function LocalizedPageSizeLines(simplified: bool, po: Catalog, lib: Library, lang: string, cs: seq<StringOpt>): seq<Line>
  {
    [Localized(lang, "Translation", "PageSize", Tr(po, "Media Size")),
     Localized(lang, "Translation", "PageRegion", Tr(po, "Media Size"))]
    + PaperTranslations(simplified, |cs|, po, lib, lang, cs)
  }

  /** The PageSize part of the localization pass for the language `lang` with catalog `po`. */
  method LocalizePageSizes(simplified: bool, po: Catalog, lib: Library, lang: string, cs: seq<StringOpt>)
    returns (lines: seq<Line>)
    ensures lines == LocalizedPageSizeLines(simplified, po, lib, lang, cs)
  {
    var heads := [Localized(lang, "Translation", "PageSize", Tr(po, "Media Size")),
                  Localized(lang, "Translation", "PageRegion", Tr(po, "Media Size"))];
    var body: seq<Line> := [];
    var i := 0;
    while i < |cs|
      invariant 0 <= i <= |cs|
      invariant body == PaperTranslations(simplified, |cs|, po, lib, lang, cs[..i])
    {
      var opt := cs[i];
      assert cs[..i + 1][..i] == cs[..i];
      var papersize := lib.paperOf(opt.name);
      if papersize.None? {
        i := i + 1;
        continue;
      }
      if simplified && |cs| >= 10 && Extended(papersize.value.unit) {
        i := i + 1;
        continue;
      }
      if (papersize.value.width <= 0 || papersize.value.height <= 0) && opt.name != "Custom" {
        i := i + 1;
        continue;
      }
      body := body + [Localized(lang, "PageSize", opt.name, Tr(po, opt.text)), Localized(lang, "PageRegion", opt.name, Tr(po, opt.text))];
      i := i + 1;
    }
    assert cs[..i] == cs;
    lines := heads + body;
  }

  /** The names of the papers, without "Custom". */
  function WithoutCustom(ns: seq<string>): (r: seq<string>)
    ensures "Custom" !in r
  {
    if |ns| == 0 then [] else WithoutCustom(ns[..|ns| - 1]) + (if ns[|ns| - 1] == "Custom" then [] else [ns[|ns| - 1]])
  }

  /** The entries the localization pass translates, in order. */
  function TranslatedOpts(simplified: bool, count: nat, lib: Library, cs: seq<StringOpt>): seq<StringOpt>
  {
    if |cs| == 0 then []
    else
      var last := cs[|cs| - 1];
      TranslatedOpts(simplified, count, lib, cs[..|cs| - 1]) + (if Translated(simplified, count, lib, last) then [last] else [])
  }

  /** Under either keyword, the localization pass translates exactly the entries `Translated`
      selects. */
  lemma {:induction false} PaperTranslationsCover(simplified: bool, count: nat, po: Catalog, lib: Library, lang: string, cs: seq<StringOpt>, kw: string)
    requires kw == "PageSize" || kw == "PageRegion"
    ensures Translations(PaperTranslations(simplified, count, po, lib, lang, cs), lang, kw) == OptNames(TranslatedOpts(simplified, count, lib, cs))
    decreases |cs|
  {
    if |cs| > 0 {
      PaperTranslationsCover(simplified, count, po, lib, lang, cs[..|cs| - 1], kw);
      PaperTranslationsStep(simplified, count, po, lib, lang, cs, kw);
      TranslatedOptsStep(simplified, count, lib, cs);
    }
  }

  /** Under any other keyword the paper translations translate nothing. */
  lemma {:induction false} PaperTranslationsElsewhere(simplified: bool, count: nat, po: Catalog, lib: Library, lang: string,
                                                      cs: seq<StringOpt>, kw: string)
    requires kw != "PageSize" && kw != "PageRegion"
    ensures Translations(PaperTranslations(simplified, count, po, lib, lang, cs), lang, kw) == []
    decreases |cs|
  {
    if |cs| > 0 {
      var last := cs[|cs| - 1];
      var tail := if Translated(simplified, count, lib, last) then PaperTranslation(po, lang, last) else [];
      PaperTranslationsElsewhere(simplified, count, po, lib, lang, cs[..|cs| - 1], kw);
      TranslationsNone(tail, lang, kw);
      TranslationsAppend(PaperTranslations(simplified, count, po, lib, lang, cs[..|cs| - 1]), tail, lang, kw);
    }
  }

  /** One paper's two lines translate its name under either keyword. */
  lemma PaperTranslationNames(po: Catalog, lang: string, opt: StringOpt, kw: string)
    requires kw == "PageSize" || kw == "PageRegion"
    ensures Translations(PaperTranslation(po, lang, opt), lang, kw) == [opt.name]
  {
    var tail := PaperTranslation(po, lang, opt);
    assert tail == [tail[0]] + [tail[1]];
    TranslationsAppend([tail[0]], [tail[1]], lang, kw);
  }

  lemma PaperTranslationsStep(simplified: bool, count: nat, po: Catalog, lib: Library, lang: string, cs: seq<StringOpt>, kw: string)
    requires |cs| > 0
    requires kw == "PageSize" || kw == "PageRegion"
    ensures Translations(PaperTranslations(simplified, count, po, lib, lang, cs), lang, kw)
         == Translations(PaperTranslations(simplified, count, po, lib, lang, cs[..|cs| - 1]), lang, kw)
            + (if Translated(simplified, count, lib, cs[|cs| - 1]) then [cs[|cs| - 1].name] else [])
  {
    var last := cs[|cs| - 1];
    var tail := if Translated(simplified, count, lib, last) then PaperTranslation(po, lang, last) else [];
    TranslationsAppend(PaperTranslations(simplified, count, po, lib, lang, cs[..|cs| - 1]), tail, lang, kw);
    PaperTranslationNames(po, lang, last, kw);
  }

  lemma TranslatedOptsStep(simplified: bool, count: nat, lib: Library, cs: seq<StringOpt>)
    requires |cs| > 0
    ensures OptNames(TranslatedOpts(simplified, count, lib, cs))
         == OptNames(TranslatedOpts(simplified, count, lib, cs[..|cs| - 1]))
            + (if Translated(simplified, count, lib, cs[|cs| - 1]) then [cs[|cs| - 1].name] else [])
  {
    if Translated(simplified, count, lib, cs[|cs| - 1]) {
      OptNamesSnoc(TranslatedOpts(simplified, count, lib, cs[..|cs| - 1]), cs[|cs| - 1]);
    } else {
      assert TranslatedOpts(simplified, count, lib, cs) == TranslatedOpts(simplified, count, lib, cs[..|cs| - 1]) + [];
    }
  }

  lemma PaperNamesSnoc(ps: seq<Paper>, p: Paper)
    ensures PaperNames(ps + [p]) == PaperNames(ps) + [p.name]
  {
    assert (ps + [p])[..|ps|] == ps;
  }

  lemma WithoutCustomSnoc(ns: seq<string>, n: string)
    ensures WithoutCustom(ns + [n]) == WithoutCustom(ns) + (if n == "Custom" then [] else [n])
  {
    assert (ns + [n])[..|ns|] == ns;
  }

  /** The papers the tables list are the translated ones without "Custom": the localization
      pass translates every stored paper, and beyond them only the custom size. */
  lemma {:induction false} StoredAreTranslated(simplified: bool, count: nat, po: Catalog, lib: Library, cs: seq<StringOpt>)
    ensures PaperNames(StoredPapers(simplified, count, po, lib, cs)) == WithoutCustom(OptNames(TranslatedOpts(simplified, count, lib, cs)))
    decreases |cs|
  {
    if |cs| > 0 {
      var init, last := cs[..|cs| - 1], cs[|cs| - 1];
      StoredAreTranslated(simplified, count, po, lib, init);
      var ps := StoredPapers(simplified, count, po, lib, init);
      var ts := TranslatedOpts(simplified, count, lib, init);
      if Stored(simplified, count, lib, last) {
        assert StoredPapers(simplified, count, po, lib, cs) == ps + [StorePaper(po, last, lib.probe(last.name))];
        assert TranslatedOpts(simplified, count, lib, cs) == ts + [last];
        PaperNamesSnoc(ps, StorePaper(po, last, lib.probe(last.name)));
        OptNamesSnoc(ts, last);
        WithoutCustomSnoc(OptNames(ts), last.name);
      } else if Translated(simplified, count, lib, last) {
        assert last.name == "Custom";
        assert StoredPapers(simplified, count, po, lib, cs) == ps;
        assert TranslatedOpts(simplified, count, lib, cs) == ts + [last];
        OptNamesSnoc(ts, last);
        WithoutCustomSnoc(OptNames(ts), last.name);
      } else {
        assert StoredPapers(simplified, count, po, lib, cs) == ps;
        assert TranslatedOpts(simplified, count, lib, cs) == ts;
      }
    }
  }
}
