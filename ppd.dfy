/** The data model of the PPD generator: the printer driver's parameter descriptions, the
    message catalog, and the lines of a PPD file. */
module Ppd {
  import opened Text

  /** The three PPD variants generated per printer model. */
  datatype PpdType = Standard | Simplified | NoColorOpts

  /** The driver library's parameter types, in the order of its enumeration. */
  datatype ParamType = StringList | Int | Boolean | Double | Curve | File | Raw | Array | Dimension | Invalid

  /** The types the PPD writer has no choices for. */
  datatype OpaqueKind = CurveKind | FileKind | RawKind | ArrayKind | InvalidKind

  /** The value `%d` prints for a parameter type. */
  function TypeCode(t: ParamType): (code: nat)
    ensures code < 10
    ensures t == StringList <==> code == 0
    ensures t == Invalid <==> code == 9
  {
    match t
    case StringList => 0
    case Int => 1
    case Boolean => 2
    case Double => 3
    case Curve => 4
    case File => 5
    case Raw => 6
    case Array => 7
    case Dimension => 8
    case Invalid => 9
  }

  lemma TypeCodeInjective(s: ParamType, t: ParamType)
    requires TypeCode(s) == TypeCode(t)
    ensures s == t
  {
  }

  /** Parameter classes: printer features first, then output control. */
  const ClassFeature: nat := 0
  const ClassOutput: nat := 1
  /** Parameter levels: Basic is 0, Advanced4 is 5. */
  const LevelBasic: nat := 0
  const LevelAdvanced4: nat := 5

  /** The untranslated group names, indexed by class and by level. */
  const ClassNames: seq<string> := ["Printer Features", "Output Control"]
  const LevelNames: seq<string> := ["Common", "Extra 1", "Extra 2", "Extra 3", "Extra 4", "Extra 5"]

  /** One entry of a string-list parameter: its internal name and its display text. */
  datatype StringOpt = StringOpt(name: string, text: string)

  /** The typed part of a parameter description: its bounds and its default.
      Double values are held in thousandths. */
  datatype Bounds =
    | ListBounds(choices: seq<StringOpt>, deflt: string)
    | BoolBounds(bdeflt: bool)
    | RealBounds(rlower: int, rupper: int, rdeflt: int)
    | IntBounds(ilower: int, iupper: int, ideflt: int)
    | DimBounds(dlower: int, dupper: int, ddeflt: int)
    | Opaque(kind: OpaqueKind)

  /** What `stp_describe_parameter` reports about one parameter; `isColor` is the answer to
      whether its "Color" category is "Yes". */
  datatype ParamDesc = ParamDesc(
    name: string,
    text: string,
    pClass: int,
    pLevel: int,
    isMandatory: bool,
    isActive: bool,
    readOnly: bool,
    channel: int,
    isColor: bool,
    bounds: Bounds)

  function PType(d: ParamDesc): (t: ParamType)
    ensures t == StringList <==> d.bounds.ListBounds?
    ensures t == Double <==> d.bounds.RealBounds?
  {
    match d.bounds
    case ListBounds(_, _) => StringList
    case BoolBounds(_) => Boolean
    case RealBounds(_, _, _) => Double
    case IntBounds(_, _, _) => Int
    case DimBounds(_, _, _) => Dimension
    case Opaque(k) =>
      match k
      case CurveKind => Curve
      case FileKind => File
      case RawKind => Raw
      case ArrayKind => Array
      case InvalidKind => Invalid
  }

  /** The internal names of string-list entries, in order. */
  function OptNames(cs: seq<StringOpt>): (ns: seq<string>)
    ensures |ns| == |cs| && forall k :: 0 <= k < |cs| ==> ns[k] == cs[k].name
  {
    if |cs| == 0 then [] else [cs[0].name] + OptNames(cs[1..])
  }

  lemma OptNamesSnoc(cs: seq<StringOpt>, c: StringOpt)
    ensures OptNames(cs + [c]) == OptNames(cs) + [c.name]
  {
  }

  lemma {:induction false} OptNamesLast(cs: seq<StringOpt>)
    requires |cs| > 0
    ensures OptNames(cs) == OptNames(cs[..|cs| - 1]) + [cs[|cs| - 1].name]
    decreases |cs|
  {
    if |cs| > 1 {
      var t := cs[1..];
      OptNamesLast(t);
      assert t[..|t| - 1] == cs[..|cs| - 1][1..];
    }
  }

  /** A message catalog; a message it lacks translates to itself, and the empty catalog
      stands for the absent one. */
  type Catalog = map<string, string>

  /** `stp_i18n_lookup`. */
  function Tr(po: Catalog, s: string): (r: string)
    ensures s !in po ==> r == s
    ensures s in po ==> r == po[s]
  {
    if s in po then po[s] else s
  }

  /** One line (or block) of PPD text.
      `Choice` is a main keyword line "*[?]Keyword Option/Label:Code", the "?" marking a choice
      the PPD consumer may ignore; `Localized` is a translation line "*lang.Keyword Option/Label: """;
      `Mapping` is a "*StpResolutionMap: Name Option" line, tying a presented resolution name to
      the driver's own; `Plain` is any other text. */
  datatype Line =
    | Choice(query: bool, keyword: string, option: string, display: string, code: string)
    | Localized(lang: string, keyword: string, option: string, display: string)
    | Mapping(name: string, option: string)
    | Plain(text: string)

  /** The bytes of a line. */
  function Render(l: Line): string
  {
    match l
    case Choice(q, k, o, d, c) => "*" + (if q then "?" else "") + k + " " + o + "/" + d + ":" + c + "\n"
    case Localized(lang, k, o, d) => "*" + lang + "." + k + " " + o + "/" + d + ": \"\"\n"
    case Mapping(n, o) => "*StpResolutionMap: " + n + " " + o + "\n"
    case Plain(t) => t
  }

  /** The bytes of a sequence of lines. */
  function RenderAll(ls: seq<Line>): string
  {
    if |ls| == 0 then "" else RenderAll(ls[..|ls| - 1]) + Render(ls[|ls| - 1])
  }

  lemma {:induction false} RenderAllAppend(a: seq<Line>, b: seq<Line>)
    ensures RenderAll(a + b) == RenderAll(a) + RenderAll(b)
    decreases |b|
  {
    if |b| == 0 {
      assert a + b == a;
    } else {
      assert (a + b)[..|a + b| - 1] == a + b[..|b| - 1];
      RenderAllAppend(a, b[..|b| - 1]);
    }
  }

  /** A choice line starts with "*?" exactly when it is marked ignorable. */
  lemma ChoiceMarker(q: bool, k: string, o: string, d: string, c: string)
    requires |k| > 0 && k[0] != '?'
    ensures Render(Choice(q, k, o, d, c))[0] == '*'
    ensures Render(Choice(q, k, o, d, c))[1] == '?' <==> q
  {
  }

  /** The options declared under `keyword` by the main keyword lines of `ls`, in order. */
  function Declarations(ls: seq<Line>, keyword: string): seq<string>
  {
    if |ls| == 0 then []
    else (if ls[0].Choice? && ls[0].keyword == keyword then [ls[0].option] else []) + Declarations(ls[1..], keyword)
  }

  /** The options translated under `keyword` into `lang` by the translation lines of `ls`, in order. */
  function Translations(ls: seq<Line>, lang: string, keyword: string): seq<string>
  {
    if |ls| == 0 then []
    else
      var here := ls[0].Localized? && ls[0].lang == lang && ls[0].keyword == keyword;
      (if here then [ls[0].option] else []) + Translations(ls[1..], lang, keyword)
  }

  /** The (name, option) pairs of the mapping lines of `ls`, in order. */
  function Mappings(ls: seq<Line>): seq<(string, string)>
  {
    if |ls| == 0 then []
    else (if ls[0].Mapping? then [(ls[0].name, ls[0].option)] else []) + Mappings(ls[1..])
  }

  lemma {:induction false} MappingsAppend(a: seq<Line>, b: seq<Line>)
    ensures Mappings(a + b) == Mappings(a) + Mappings(b)
    decreases |a|
  {
    if |a| == 0 {
      assert a + b == b;
    } else {
      assert (a + b)[1..] == a[1..] + b;
      assert (a + b)[0] == a[0];
      MappingsAppend(a[1..], b);
    }
  }

  lemma {:induction false} DeclarationsAppend(a: seq<Line>, b: seq<Line>, keyword: string)
    ensures Declarations(a + b, keyword) == Declarations(a, keyword) + Declarations(b, keyword)
    decreases |a|
  {
    if |a| == 0 {
      assert a + b == b;
    } else {
      assert (a + b)[1..] == a[1..] + b;
      DeclarationsAppend(a[1..], b, keyword);
    }
  }

  /** Four pieces of which the last declares nothing. */
  lemma DeclarationsFront(a: seq<Line>, b: seq<Line>, c: seq<Line>, e: seq<Line>, kw: string)
    requires Declarations(e, kw) == []
    ensures Declarations(a + b + c + e, kw) == Declarations(a, kw) + Declarations(b, kw) + Declarations(c, kw)
  {
    Declarations3(a, b, c, kw);
    DeclarationsAppend(a + b + c, e, kw);
    var u, v, n := Declarations(a, kw), Declarations(b, kw), Declarations(c, kw);
    assert u + v + n + [] == u + v + n;
  }

  /** Five pieces of which only the second and third declare anything. */
  lemma DeclarationsMiddle(a: seq<Line>, b: seq<Line>, c: seq<Line>, e: seq<Line>, f: seq<Line>, kw: string)
    requires Declarations(a, kw) == [] && Declarations(e, kw) == [] && Declarations(f, kw) == []
    ensures Declarations(a + b + c + e + f, kw) == Declarations(b, kw) + Declarations(c, kw)
  {
    Declarations3(a, b, c, kw);
    Declarations3(a + b + c, e, f, kw);
    var v, n := Declarations(b, kw), Declarations(c, kw);
    assert [] + v + n + [] + [] == v + n;
  }

  lemma Translations3(a: seq<Line>, b: seq<Line>, c: seq<Line>, lang: string, kw: string)
    ensures Translations(a + b + c, lang, kw) == Translations(a, lang, kw) + Translations(b, lang, kw) + Translations(c, lang, kw)
  {
    TranslationsAppend(a, b, lang, kw);
    TranslationsAppend(a + b, c, lang, kw);
  }

  /** Declarations of a three-part concatenation. */
  lemma Declarations3(a: seq<Line>, b: seq<Line>, c: seq<Line>, kw: string)
    ensures Declarations(a + b + c, kw) == Declarations(a, kw) + Declarations(b, kw) + Declarations(c, kw)
  {
    DeclarationsAppend(a, b, kw);
    DeclarationsAppend(a + b, c, kw);
  }

  /** Four pieces of which only the first two translate anything. */
  lemma TranslationsFront(a: seq<Line>, b: seq<Line>, c: seq<Line>, e: seq<Line>, lang: string, kw: string)
    requires Translations(c, lang, kw) == [] && Translations(e, lang, kw) == []
    ensures Translations(a + b + c + e, lang, kw) == Translations(a, lang, kw) + Translations(b, lang, kw)
  {
    Translations3(a, b, c, lang, kw);
    TranslationsAppend(a + b + c, e, lang, kw);
    var v, n := Translations(a, lang, kw), Translations(b, lang, kw);
    assert v + n + [] + [] == v + n;
  }

  /** Three pieces of which the first translates nothing. */
  lemma TranslationsBack(a: seq<Line>, b: seq<Line>, c: seq<Line>, lang: string, kw: string)
    requires Translations(a, lang, kw) == []
    ensures Translations(a + b + c, lang, kw) == Translations(b, lang, kw) + Translations(c, lang, kw)
  {
    Translations3(a, b, c, lang, kw);
    var v, n := Translations(b, lang, kw), Translations(c, lang, kw);
    assert [] + v + n == v + n;
  }

  /** Lines inserted between two pieces that translate nothing come first among the translations. */
  lemma {:induction false} TranslationsAppend(a: seq<Line>, b: seq<Line>, lang: string, keyword: string)
    ensures Translations(a + b, lang, keyword) == Translations(a, lang, keyword) + Translations(b, lang, keyword)
    decreases |a|
  {
    if |a| == 0 {
      assert a + b == b;
    } else {
      assert (a + b)[1..] == a[1..] + b;
      TranslationsAppend(a[1..], b, lang, keyword);
    }
  }

  /** The values of `for (v = i; v <= hi; v += step)`. */
  function Steps(i: int, hi: int, step: nat): seq<int>
    requires step > 0
    decreases hi - i
  {
    if i > hi then [] else [i] + Steps(i + step, hi, step)
  }

  lemma {:induction false} StepsAbove(i: int, hi: int, step: nat)
    requires step > 0
    ensures forall v :: v in Steps(i, hi, step) ==> i <= v <= hi
    decreases hi - i
  {
    if i <= hi {
      StepsAbove(i + step, hi, step);
    }
  }

  /** The loop never visits a value twice. */
  lemma {:induction false} StepsDistinct(i: int, hi: int, step: nat)
    requires step > 0
    ensures forall a, b :: 0 <= a < b < |Steps(i, hi, step)| ==> Steps(i, hi, step)[a] != Steps(i, hi, step)[b]
    decreases hi - i
  {
    if i <= hi {
      var s := Steps(i, hi, step);
      var t := Steps(i + step, hi, step);
      StepsDistinct(i + step, hi, step);
      StepsAbove(i + step, hi, step);
      forall a, b | 0 <= a < b < |s|
        ensures s[a] != s[b]
      {
        assert s[b] == t[b - 1];
        if a > 0 {
          assert s[a] == t[a - 1];
        } else {
          assert t[b - 1] in t;
        }
      }
    }
  }

  /** Each value's line, in the order of the values. */
  function MapLines(vs: seq<int>, f: int -> Line): (ls: seq<Line>)
    ensures |ls| == |vs| && forall k :: 0 <= k < |vs| ==> ls[k] == f(vs[k])
  {
    if |vs| == 0 then [] else [f(vs[0])] + MapLines(vs[1..], f)
  }

  lemma MapLinesSnoc(vs: seq<int>, v: int, f: int -> Line)
    ensures MapLines(vs + [v], f) == MapLines(vs, f) + [f(v)]
  {
    var a, b := MapLines(vs + [v], f), MapLines(vs, f) + [f(v)];
    assert |a| == |b|;
    forall k | 0 <= k < |a|
      ensures a[k] == b[k]
    {
      assert (vs + [v])[k] == if k < |vs| then vs[k] else v;
    }
  }

  /** Each value's option name, in the order of the values. */
  function MapNames(vs: seq<int>, g: int -> string): (ns: seq<string>)
    ensures |ns| == |vs| && forall k :: 0 <= k < |vs| ==> ns[k] == g(vs[k])
  {
    if |vs| == 0 then [] else [g(vs[0])] + MapNames(vs[1..], g)
  }

  /** Lines that all declare under `keyword` declare the options `g` names. */
  lemma {:induction false} DeclarationsOfMap(vs: seq<int>, f: int -> Line, g: int -> string, keyword: string)
    requires forall k :: 0 <= k < |vs| ==> f(vs[k]).Choice? && f(vs[k]).keyword == keyword && f(vs[k]).option == g(vs[k])
    ensures Declarations(MapLines(vs, f), keyword) == MapNames(vs, g)
    decreases |vs|
  {
    if |vs| > 0 {
      var ls := MapLines(vs, f);
      assert ls[0] == f(vs[0]);
      assert ls[1..] == MapLines(vs[1..], f);
      assert MapNames(vs, g) == [g(vs[0])] + MapNames(vs[1..], g);
      assert Declarations(ls, keyword) == [g(vs[0])] + Declarations(ls[1..], keyword);
      assert forall k :: 0 <= k < |vs[1..]| ==> vs[1..][k] == vs[k + 1];
      DeclarationsOfMap(vs[1..], f, g, keyword);
    }
  }

  /** Translation lines into `lang` under `keyword` translate the options `g` names. */
  lemma {:induction false} TranslationsOfMap(vs: seq<int>, f: int -> Line, g: int -> string, lang: string, keyword: string)
    requires forall k :: 0 <= k < |vs| ==> f(vs[k]).Localized? && f(vs[k]).lang == lang && f(vs[k]).keyword == keyword && f(vs[k]).option == g(vs[k])
    ensures Translations(MapLines(vs, f), lang, keyword) == MapNames(vs, g)
    decreases |vs|
  {
    if |vs| > 0 {
      var ls := MapLines(vs, f);
      assert ls[0] == f(vs[0]);
      assert ls[1..] == MapLines(vs[1..], f);
      assert MapNames(vs, g) == [g(vs[0])] + MapNames(vs[1..], g);
      assert Translations(ls, lang, keyword) == [g(vs[0])] + Translations(ls[1..], lang, keyword);
      assert forall k :: 0 <= k < |vs[1..]| ==> vs[1..][k] == vs[k + 1];
      TranslationsOfMap(vs[1..], f, g, lang, keyword);
    }
  }

  /** A block of plain-text lines. */
  function PlainLines(ts: seq<string>): seq<Line>
  {
    if |ts| == 0 then [] else [Plain(ts[0])] + PlainLines(ts[1..])
  }

  /** Plain text declares, translates and maps nothing. */
  lemma {:induction false} PlainLinesNone(ts: seq<string>, lang: string, keyword: string)
    ensures Declarations(PlainLines(ts), keyword) == []
    ensures Translations(PlainLines(ts), lang, keyword) == []
    ensures Mappings(PlainLines(ts)) == []
    decreases |ts|
  {
    if |ts| > 0 {
      var ls := PlainLines(ts);
      assert ls[1..] == PlainLines(ts[1..]);
      PlainLinesNone(ts[1..], lang, keyword);
    }
  }

  /** Lines under other keywords, or of another kind, declare nothing under `keyword`. */
  lemma {:induction false} DeclarationsNone(ls: seq<Line>, keyword: string)
    requires forall k :: 0 <= k < |ls| ==> !(ls[k].Choice? && ls[k].keyword == keyword)
    ensures Declarations(ls, keyword) == []
    decreases |ls|
  {
    if |ls| > 0 {
      DeclarationsNone(ls[1..], keyword);
    }
  }

  lemma {:induction false} MappingsNone(ls: seq<Line>)
    requires forall k :: 0 <= k < |ls| ==> !ls[k].Mapping?
    ensures Mappings(ls) == []
    decreases |ls|
  {
    if |ls| > 0 {
      MappingsNone(ls[1..]);
    }
  }

  lemma {:induction false} TranslationsNone(ls: seq<Line>, lang: string, keyword: string)
    requires forall k :: 0 <= k < |ls| ==> !(ls[k].Localized? && ls[k].lang == lang && ls[k].keyword == keyword)
    ensures Translations(ls, lang, keyword) == []
    decreases |ls|
  {
    if |ls| > 0 {
      TranslationsNone(ls[1..], lang, keyword);
    }
  }
}
