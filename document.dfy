/** The whole of `write_ppd` (genppd.c:1925-2740) as far as the modelled sections go, in its
    corrected form (the Resolution default named from its clamped pair, a constraint whose only
    '*' opens its text skipped, the automatic Resolution choice translated only when the main pass
    named one); the as-written forms are in `Resolutions` and `Sections`. It covers the generic
    options grouped by class and level, the sections in the order the main pass writes them, the
    localization pass over every language with a catalog. */
module Document {
  import opened Text
  import opened Ppd
  import opened Options
  import opened Resolution
  import opened Sections
  import opened PageSizes
  import opened Resolutions

  // ----- The generic options, by class and level -----

  /** The deepest level a variant lists: Basic for the simplified PPD, Advanced4 otherwise. */
  function MaxLevel(t: PpdType): (n: nat)
    ensures n < |LevelNames|
  {
    if t == Simplified then LevelBasic else LevelAdvanced4
  }

  /** The parameter types the generic writer has choices for. */
  predicate Listable(d: ParamDesc)
  {
    var ty := PType(d);
    ty == StringList || ty == Boolean || ty == Dimension || ty == Int || ty == Double
  }

  /** A parameter the generic writer takes: not one the dedicated sections write, not read-only,
      of a listable type, and active. */
  predicate Writable(d: ParamDesc)
  {
    !SpecialName(d.name) && !d.readOnly && Listable(d) && d.isActive
  }

  /** A parameter the bucket of class `j` and level `k` writes. */
  predicate Shown(d: ParamDesc, j: int, k: int)
  {
    d.pClass == j && d.pLevel == k && Writable(d)
  }

  /** The parameters of `ps` the bucket (j, k) writes, in list order. */
  function Bucket(ps: seq<ParamDesc>, j: int, k: int): seq<ParamDesc>
  {
    if |ps| == 0 then []
    else Bucket(ps[..|ps| - 1], j, k) + (if Shown(ps[|ps| - 1], j, k) then [ps[|ps| - 1]] else [])
  }

  /** The buckets of class `j` for the levels below `n`, in level order. */
  function ClassBuckets(ps: seq<ParamDesc>, j: int, n: nat): seq<ParamDesc>
  {
    if n == 0 then [] else ClassBuckets(ps, j, n - 1) + Bucket(ps, j, n - 1)
  }

  /** The buckets of the classes below `m` and the levels below `n`, class by class. */
  function Listed(ps: seq<ParamDesc>, m: nat, n: nat): seq<ParamDesc>
  {
    if m == 0 then [] else Listed(ps, m - 1, n) + ClassBuckets(ps, m - 1, n)
  }

  /** Every parameter the variant `t` writes as a generic option, in the order written. */
  function ListedParams(t: PpdType, ps: seq<ParamDesc>): seq<ParamDesc>
  {
    Listed(ps, ClassOutput + 1, MaxLevel(t) + 1)
  }

  /** What decides whether the variant `t` writes `d` as a generic option. */
  predicate Eligible(t: PpdType, d: ParamDesc)
  {
    0 <= d.pClass <= ClassOutput && 0 <= d.pLevel <= MaxLevel(t) && Writable(d)
  }

  /** The lines `f` writes for each of the parameters `ds`, one after the other. */
  function Concat(f: ParamDesc -> seq<Line>, ds: seq<ParamDesc>): seq<Line>
  {
    if |ds| == 0 then [] else Concat(f, ds[..|ds| - 1]) + f(ds[|ds| - 1])
  }

  /** `print_one_option` for a parameter listed under its own name. */
  function OptionOf(t: PpdType, po: Catalog, mm: (string, int) -> string): ParamDesc -> seq<Line>
  {
    (d: ParamDesc) => OptionLines(t, po, mm, d.name, d)
  }

  /** `print_one_localization` into `lang`. */
  function LocOf(t: PpdType, ln: bool, po: Catalog, mm: (string, int) -> string, lang: string): ParamDesc -> seq<Line>
  {
    (d: ParamDesc) => LocalizationLines(t, ln, po, mm, lang, d)
  }

  /** The language `print_group_open` passes on: the PPD's, or "C" when it has none. */
  function OpenLanguage(language: Option<string>): string
  {
    if language.Some? then language.value else "C"
  }

  /** One bucket: nothing when it is empty, otherwise its options between the opening of the
      group (in the catalog `po`) and its closing (with no catalog). */
  function BucketLines(t: PpdType, po: Catalog, mm: (string, int) -> string, language: Option<string>,
                       langs: seq<string>, load: string -> Option<Catalog>, ps: seq<ParamDesc>, j: nat, k: nat): seq<Line>
    requires j < |ClassNames| && k < |LevelNames|
  {
    var b := Bucket(ps, j, k);
    if |b| == 0 then []
    else
      GroupLines("Open", j, k, Some(OpenLanguage(language)), po, langs, load)
      + Concat(OptionOf(t, po, mm), b)
      + GroupLines("Close", j, k, None, map[], langs, load)
  }

  /** The buckets of class `j` and the levels below `n`. */
  function LevelLines(t: PpdType, po: Catalog, mm: (string, int) -> string, language: Option<string>,
                      langs: seq<string>, load: string -> Option<Catalog>, ps: seq<ParamDesc>, j: nat, n: nat): seq<Line>
    requires j < |ClassNames| && n <= |LevelNames|
  {
    if n == 0 then [] else LevelLines(t, po, mm, language, langs, load, ps, j, n - 1) + BucketLines(t, po, mm, language, langs, load, ps, j, n - 1)
  }

  /** The buckets of the classes below `m` and the levels below `n`. */
  function ClassLines(t: PpdType, po: Catalog, mm: (string, int) -> string, language: Option<string>,
                      langs: seq<string>, load: string -> Option<Catalog>, ps: seq<ParamDesc>, m: nat, n: nat): seq<Line>
    requires m <= |ClassNames| && n <= |LevelNames|
  {
    if m == 0 then [] else ClassLines(t, po, mm, language, langs, load, ps, m - 1, n) + LevelLines(t, po, mm, language, langs, load, ps, m - 1, n)
  }

  // ----- Facts about the buckets -----

  lemma {:induction false} BucketSound(ps: seq<ParamDesc>, j: int, k: int, x: ParamDesc)
    ensures x in Bucket(ps, j, k) ==> x in ps && x.pClass == j && x.pLevel == k && Writable(x)
    decreases |ps|
  {
    if |ps| > 0 {
      var front := ps[..|ps| - 1];
      assert Bucket(ps, j, k) == Bucket(front, j, k) + (if Shown(ps[|ps| - 1], j, k) then [ps[|ps| - 1]] else []);
      if x in Bucket(front, j, k) {
        BucketSound(front, j, k, x);
        assert x in ps;
      }
    }
  }

  lemma {:induction false} BucketComplete(ps: seq<ParamDesc>, j: int, k: int, x: ParamDesc)
    requires x in ps && Shown(x, j, k)
    ensures x in Bucket(ps, j, k)
    decreases |ps|
  {
    var front := ps[..|ps| - 1];
    assert Bucket(ps, j, k) == Bucket(front, j, k) + (if Shown(ps[|ps| - 1], j, k) then [ps[|ps| - 1]] else []);
    if x != ps[|ps| - 1] {
      assert ps == front + [ps[|ps| - 1]];
      BucketComplete(front, j, k, x);
    }
  }

  lemma {:induction false} ClassBucketsSound(ps: seq<ParamDesc>, j: int, n: nat, x: ParamDesc)
    ensures x in ClassBuckets(ps, j, n) ==> x in ps && x.pClass == j && 0 <= x.pLevel < n && Writable(x)
    decreases n
  {
    if n > 0 {
      var front, last := ClassBuckets(ps, j, n - 1), Bucket(ps, j, n - 1);
      assert ClassBuckets(ps, j, n) == front + last;
      InAppend(front, last, x);
      if x in front {
        ClassBucketsSound(ps, j, n - 1, x);
      } else if x in last {
        BucketSound(ps, j, n - 1, x);
      }
    }
  }

  lemma {:induction false} ClassBucketsComplete(ps: seq<ParamDesc>, j: int, n: nat, x: ParamDesc)
    requires x in ps && 0 <= x.pLevel < n && Shown(x, j, x.pLevel)
    ensures x in ClassBuckets(ps, j, n)
    decreases n
  {
    var front, last := ClassBuckets(ps, j, n - 1), Bucket(ps, j, n - 1);
    assert ClassBuckets(ps, j, n) == front + last;
    if x.pLevel < n - 1 {
      ClassBucketsComplete(ps, j, n - 1, x);
      InAppend(front, last, x);
    } else {
      BucketComplete(ps, j, n - 1, x);
      InAppend(front, last, x);
    }
  }

  lemma ListedSound(ps: seq<ParamDesc>, m: nat, n: nat, x: ParamDesc)
    ensures x in Listed(ps, m, n) ==> x in ps && 0 <= x.pClass < m && 0 <= x.pLevel < n && Writable(x)
  {
    if x in Listed(ps, m, n) {
      ListedMember(ps, m, n, x);
    }
  }

  /** A member of the listed buckets comes from the list, from a class below `m` and a level below `n`, and is writable. */
  lemma {:induction false} ListedMember(ps: seq<ParamDesc>, m: nat, n: nat, x: ParamDesc)
    requires x in Listed(ps, m, n)
    ensures x in ps && 0 <= x.pClass < m && 0 <= x.pLevel < n && Writable(x)
    decreases m
  {
    var front, last := Listed(ps, m - 1, n), ClassBuckets(ps, m - 1, n);
    assert Listed(ps, m, n) == front + last;
    InAppend(front, last, x);
    if x in front {
      ListedMember(ps, m - 1, n, x);
    } else {
      ClassBucketsSound(ps, m - 1, n, x);
    }
  }

  lemma {:induction false} ListedComplete(ps: seq<ParamDesc>, m: nat, n: nat, x: ParamDesc)
    requires x in ps && 0 <= x.pClass < m && 0 <= x.pLevel < n && Shown(x, x.pClass, x.pLevel)
    ensures x in Listed(ps, m, n)
    decreases m
  {
    var front, last := Listed(ps, m - 1, n), ClassBuckets(ps, m - 1, n);
    assert Listed(ps, m, n) == front + last;
    if x.pClass < m - 1 {
      ListedComplete(ps, m - 1, n, x);
      InAppend(front, last, x);
    } else {
      ClassBucketsComplete(ps, m - 1, n, x);
      InAppend(front, last, x);
    }
  }

  /** A parameter is written as a generic option exactly when it is eligible (genppd.c:2389-2404). */
  lemma ListedExactly(t: PpdType, ps: seq<ParamDesc>, x: ParamDesc)
    ensures x in ListedParams(t, ps) <==> x in ps && Eligible(t, x)
  {
    ListedSound(ps, ClassOutput + 1, MaxLevel(t) + 1, x);
    if x in ps && Eligible(t, x) {
      ListedComplete(ps, ClassOutput + 1, MaxLevel(t) + 1, x);
    }
  }

  /** The simplified PPD lists only Basic parameters; the others list every level up to Advanced4. */
  lemma SimplifiedListsBasic(ps: seq<ParamDesc>, x: ParamDesc)
    ensures x in ListedParams(Simplified, ps) ==> x.pLevel == LevelBasic
    ensures x in ListedParams(Standard, ps) <==> x in ListedParams(NoColorOpts, ps)
  {
    ListedExactly(Simplified, ps, x);
    ListedExactly(Standard, ps, x);
    ListedExactly(NoColorOpts, ps, x);
  }

  /** A group is opened and closed only around a bucket with something to write. */
  lemma BucketOpensGroup(t: PpdType, po: Catalog, mm: (string, int) -> string, language: Option<string>,
                         langs: seq<string>, load: string -> Option<Catalog>, ps: seq<ParamDesc>, j: nat, k: nat)
    requires j < |ClassNames| && k < |LevelNames|
    ensures BucketLines(t, po, mm, language, langs, load, ps, j, k) == [] <==> forall x :: x in ps ==> !Shown(x, j, k)
  {
    var b := Bucket(ps, j, k);
    if |b| > 0 {
      BucketSound(ps, j, k, b[0]);
    } else {
      forall x | x in ps
        ensures !Shown(x, j, k)
      {
        if Shown(x, j, k) {
          BucketComplete(ps, j, k, x);
        }
      }
    }
  }

  lemma {:induction false} ConcatAppend(f: ParamDesc -> seq<Line>, a: seq<ParamDesc>, b: seq<ParamDesc>)
    ensures Concat(f, a + b) == Concat(f, a) + Concat(f, b)
    decreases |b|
  {
    if |b| == 0 {
      assert a + b == a;
    } else {
      assert (a + b)[..|a + b| - 1] == a + b[..|b| - 1];
      ConcatAppend(f, a, b[..|b| - 1]);
    }
  }

  lemma BucketSnoc(ps: seq<ParamDesc>, l: nat, j: int, k: int)
    requires l < |ps|
    ensures Bucket(ps[..l + 1], j, k) == Bucket(ps[..l], j, k) + (if Shown(ps[l], j, k) then [ps[l]] else [])
  {
    assert ps[..l + 1][..l] == ps[..l];
  }

  lemma ConcatSnoc(f: ParamDesc -> seq<Line>, ds: seq<ParamDesc>, d: ParamDesc)
    ensures Concat(f, ds + [d]) == Concat(f, ds) + f(d)
  {
    assert (ds + [d])[..|ds|] == ds;
  }

  lemma ListedConcat(f: ParamDesc -> seq<Line>, ps: seq<ParamDesc>, j: nat, n: nat)
    ensures Concat(f, Listed(ps, j + 1, n)) == Concat(f, Listed(ps, j, n)) + Concat(f, ClassBuckets(ps, j, n))
  {
    ConcatAppend(f, Listed(ps, j, n), ClassBuckets(ps, j, n));
  }

  lemma ClassBucketsConcat(f: ParamDesc -> seq<Line>, ps: seq<ParamDesc>, j: int, k: nat)
    ensures Concat(f, ClassBuckets(ps, j, k + 1)) == Concat(f, ClassBuckets(ps, j, k)) + Concat(f, Bucket(ps, j, k))
  {
    ConcatAppend(f, ClassBuckets(ps, j, k), Bucket(ps, j, k));
  }

  // ----- The bucket loop -----

  /** The test of genppd.c:2393-2402 and the `is_active` check after it. */
  method Takes(d: ParamDesc, j: nat, k: nat) returns (b: bool)
    ensures b == Shown(d, j, k)
  {
    var special := IsSpecialOption(d.name);
    SpecialNameIn(d.name);
    b := d.pClass == j && d.pLevel == k && !special && !d.readOnly && Listable(d) && d.isActive;
  }

  /** One step of the parameter loop of a bucket (genppd.c:2389-2406): the parameter is
      written when it belongs to the bucket and is shown. */
  method NextParam(t: PpdType, po: Catalog, mm: (string, int) -> string, ps: seq<ParamDesc>, l: nat, j: nat, k: nat,
                   body: seq<Line>) returns (shown: bool, body': seq<Line>)
    requires l < |ps|
    requires body == Concat(OptionOf(t, po, mm), Bucket(ps[..l], j, k))
    ensures shown == Shown(ps[l], j, k)
    ensures body' == Concat(OptionOf(t, po, mm), Bucket(ps[..l + 1], j, k))
  {
    BucketSnoc(ps, l, j, k);
    var d := ps[l];
    shown := Takes(d, j, k);
    if shown {
      var option := PrintOneOption(t, po, mm, d.name, d);
      ConcatSnoc(OptionOf(t, po, mm), Bucket(ps[..l], j, k), d);
      assert OptionOf(t, po, mm)(d) == option;
      body' := body + option;
    } else {
      assert Bucket(ps[..l + 1], j, k) == Bucket(ps[..l], j, k);
      body' := body;
    }
  }

  /** One step of the parameter loop with the group: the group opens with the first parameter
      written (genppd.c:2389-2406). */
  method NextParamInGroup(t: PpdType, po: Catalog, mm: (string, int) -> string, language: Option<string>,
                          langList: LanguageList, load: string -> Option<Catalog>, ps: seq<ParamDesc>, l: nat, j: nat, k: nat,
                          groupOpen: bool, head: seq<Line>, body: seq<Line>)
    returns (groupOpen': bool, head': seq<Line>, body': seq<Line>)
    requires l < |ps| && j < |ClassNames| && k < |LevelNames|
    requires CCatalog(po) && CatalogsC(load)
    requires langList.Valid() && langList.langs == Some(SplitAt(langList.allLinguas, ' '))
    requires groupOpen <==> |Bucket(ps[..l], j, k)| > 0
    requires head == if groupOpen then GroupLines("Open", j, k, Some(OpenLanguage(language)), po, SplitAt(langList.allLinguas, ' '), load) else []
    requires body == Concat(OptionOf(t, po, mm), Bucket(ps[..l], j, k))
    modifies langList
    ensures langList.Valid() && langList.langs == Some(SplitAt(langList.allLinguas, ' '))
    ensures groupOpen' <==> |Bucket(ps[..l + 1], j, k)| > 0
    ensures head' == if groupOpen' then GroupLines("Open", j, k, Some(OpenLanguage(language)), po, SplitAt(langList.allLinguas, ' '), load) else []
    ensures body' == Concat(OptionOf(t, po, mm), Bucket(ps[..l + 1], j, k))
  {
    BucketSnoc(ps, l, j, k);
    var shown;
    shown, body' := NextParam(t, po, mm, ps, l, j, k, body);
    groupOpen', head' := groupOpen, head;
    if shown && !groupOpen {
      head' := PrintGroupOpen(j, k, language, po, langList, load);
      groupOpen' := true;
    }
  }

  /** The parameter loop of one bucket (genppd.c:2387-2408): the group opens before the first
      parameter written. */
  method PrintBucketOptions(t: PpdType, po: Catalog, mm: (string, int) -> string, language: Option<string>,
                       langList: LanguageList, load: string -> Option<Catalog>, ps: seq<ParamDesc>, j: nat, k: nat)
    returns (groupOpen: bool, head: seq<Line>, body: seq<Line>)
    requires j < |ClassNames| && k < |LevelNames|
    requires CCatalog(po) && CatalogsC(load)
    requires langList.Valid() && langList.langs == Some(SplitAt(langList.allLinguas, ' '))
    modifies langList
    ensures langList.Valid() && langList.langs == Some(SplitAt(langList.allLinguas, ' '))
    ensures groupOpen <==> |Bucket(ps, j, k)| > 0
    ensures head == if groupOpen then GroupLines("Open", j, k, Some(OpenLanguage(language)), po, SplitAt(langList.allLinguas, ' '), load) else []
    ensures body == Concat(OptionOf(t, po, mm), Bucket(ps, j, k))
  {
    ghost var langs := SplitAt(langList.allLinguas, ' ');
    ghost var openLines := GroupLines("Open", j, k, Some(OpenLanguage(language)), po, langs, load);
    head := [];
    body := [];
    groupOpen := false;
    var l := 0;
    while l < |ps|
      invariant l <= |ps|
      invariant langList.Valid() && langList.langs == Some(langs)
      invariant groupOpen <==> |Bucket(ps[..l], j, k)| > 0
      invariant head == if groupOpen then openLines else []
      invariant body == Concat(OptionOf(t, po, mm), Bucket(ps[..l], j, k))
    {
      groupOpen, head, body := NextParamInGroup(t, po, mm, language, langList, load, ps, l, j, k, groupOpen, head, body);
      l := l + 1;
    }
    assert ps[..l] == ps;
  }

  /** One bucket (genppd.c:2387-2415): its parameters, then the group close when the group
      was opened. */
  method PrintBucket(t: PpdType, po: Catalog, mm: (string, int) -> string, language: Option<string>,
                     langList: LanguageList, load: string -> Option<Catalog>, ps: seq<ParamDesc>, j: nat, k: nat)
    returns (lines: seq<Line>)
    requires j < |ClassNames| && k < |LevelNames|
    requires CCatalog(po) && CatalogsC(load)
    requires langList.Valid() && langList.langs == Some(SplitAt(langList.allLinguas, ' '))
    modifies langList
    ensures langList.Valid() && langList.langs == Some(SplitAt(langList.allLinguas, ' '))
    ensures lines == BucketLines(t, po, mm, language, SplitAt(langList.allLinguas, ' '), load, ps, j, k)
  {
    var groupOpen, head, body := PrintBucketOptions(t, po, mm, language, langList, load, ps, j, k);
    lines := head + body;
    if groupOpen {
      var close := PrintGroupClose(j, k, langList, load);
      lines := lines + close;
    }
  }

  /** The loops over the classes and the levels (genppd.c:2383-2416). */
  method PrintOptionGroups(t: PpdType, po: Catalog, mm: (string, int) -> string, language: Option<string>,
                           langList: LanguageList, load: string -> Option<Catalog>, ps: seq<ParamDesc>)
    returns (lines: seq<Line>)
    requires CCatalog(po) && CatalogsC(load)
    requires langList.Valid() && langList.langs == Some(SplitAt(langList.allLinguas, ' '))
    modifies langList
    ensures langList.Valid() && langList.langs == Some(SplitAt(langList.allLinguas, ' '))
    ensures lines == ClassLines(t, po, mm, language, SplitAt(langList.allLinguas, ' '), load, ps, ClassOutput + 1, MaxLevel(t) + 1)
  {
    lines := PrintClasses(t, po, mm, language, langList, load, ps, ClassOutput + 1, MaxLevel(t) + 1);
  }

  /** The classes below `m`. */
  method PrintClasses(t: PpdType, po: Catalog, mm: (string, int) -> string, language: Option<string>,
                      langList: LanguageList, load: string -> Option<Catalog>, ps: seq<ParamDesc>, m: nat, levels: nat)
    returns (lines: seq<Line>)
    requires m <= |ClassNames| && levels <= |LevelNames|
    requires CCatalog(po) && CatalogsC(load)
    requires langList.Valid() && langList.langs == Some(SplitAt(langList.allLinguas, ' '))
    modifies langList
    ensures langList.Valid() && langList.langs == Some(SplitAt(langList.allLinguas, ' '))
    ensures lines == ClassLines(t, po, mm, language, SplitAt(langList.allLinguas, ' '), load, ps, m, levels)
  {
    ghost var langs := SplitAt(langList.allLinguas, ' ');
    lines := [];
    var j := 0;
    while j < m
      invariant j <= m
      invariant langList.Valid() && langList.langs == Some(langs)
      invariant lines == ClassLines(t, po, mm, language, langs, load, ps, j, levels)
    {
      var row := PrintClass(t, po, mm, language, langList, load, ps, j, levels);
      lines := lines + row;
      j := j + 1;
    }
  }

  /** One level of a class: its bucket after those of the levels below. */
  method NextLevel(t: PpdType, po: Catalog, mm: (string, int) -> string, language: Option<string>,
                   langList: LanguageList, load: string -> Option<Catalog>, ps: seq<ParamDesc>, j: nat, k: nat,
                   lines: seq<Line>) returns (lines': seq<Line>)
    requires j < |ClassNames| && k < |LevelNames|
    requires CCatalog(po) && CatalogsC(load)
    requires langList.Valid() && langList.langs == Some(SplitAt(langList.allLinguas, ' '))
    requires lines == LevelLines(t, po, mm, language, SplitAt(langList.allLinguas, ' '), load, ps, j, k)
    modifies langList
    ensures langList.Valid() && langList.langs == Some(SplitAt(langList.allLinguas, ' '))
    ensures lines' == LevelLines(t, po, mm, language, SplitAt(langList.allLinguas, ' '), load, ps, j, k + 1)
  {
    var bucket := PrintBucket(t, po, mm, language, langList, load, ps, j, k);
    lines' := lines + bucket;
  }

  /** The levels of one class. */
  method PrintClass(t: PpdType, po: Catalog, mm: (string, int) -> string, language: Option<string>,
                    langList: LanguageList, load: string -> Option<Catalog>, ps: seq<ParamDesc>, j: nat, levels: nat)
    returns (lines: seq<Line>)
    requires j < |ClassNames| && levels <= |LevelNames|
    requires CCatalog(po) && CatalogsC(load)
    requires langList.Valid() && langList.langs == Some(SplitAt(langList.allLinguas, ' '))
    modifies langList
    ensures langList.Valid() && langList.langs == Some(SplitAt(langList.allLinguas, ' '))
    ensures lines == LevelLines(t, po, mm, language, SplitAt(langList.allLinguas, ' '), load, ps, j, levels)
  {
    ghost var langs := SplitAt(langList.allLinguas, ' ');
    lines := [];
    var k := 0;
    while k < levels
      invariant k <= levels
      invariant langList.Valid() && langList.langs == Some(langs)
      invariant lines == LevelLines(t, po, mm, language, langs, load, ps, j, k)
    {
      lines := NextLevel(t, po, mm, language, langList, load, ps, j, k, lines);
      k := k + 1;
    }
  }

  /** The localized options of one language (genppd.c:2676-2704): the same parameters in the same
      order as the main pass, without groups. */
  method LocalizeOptions(t: PpdType, ln: bool, po: Catalog, mm: (string, int) -> string, lang: string, ps: seq<ParamDesc>)
    returns (lines: seq<Line>)
    ensures lines == Concat(LocOf(t, ln, po, mm, lang), ListedParams(t, ps))
  {
    lines := LocalizeClasses(t, ln, po, mm, lang, ps, ClassOutput + 1, MaxLevel(t) + 1);
  }

  /** The classes below `m` in the localized options. */
  method LocalizeClasses(t: PpdType, ln: bool, po: Catalog, mm: (string, int) -> string, lang: string,
                         ps: seq<ParamDesc>, m: nat, levels: nat)
    returns (lines: seq<Line>)
    ensures lines == Concat(LocOf(t, ln, po, mm, lang), Listed(ps, m, levels))
  {
    lines := [];
    var j := 0;
    while j < m
      invariant j <= m
      invariant lines == Concat(LocOf(t, ln, po, mm, lang), Listed(ps, j, levels))
    {
      var row := LocalizeClass(t, ln, po, mm, lang, ps, j, levels);
      ListedConcat(LocOf(t, ln, po, mm, lang), ps, j, levels);
      lines := lines + row;
      j := j + 1;
    }
  }

  /** The levels of one class in the localized options. */
  method LocalizeClass(t: PpdType, ln: bool, po: Catalog, mm: (string, int) -> string, lang: string,
                       ps: seq<ParamDesc>, j: nat, levels: nat)
    returns (lines: seq<Line>)
    ensures lines == Concat(LocOf(t, ln, po, mm, lang), ClassBuckets(ps, j, levels))
  {
    lines := [];
    var k := 0;
    while k < levels
      invariant k <= levels
      invariant lines == Concat(LocOf(t, ln, po, mm, lang), ClassBuckets(ps, j, k))
    {
      var bucket := LocalizeBucket(t, ln, po, mm, lang, ps, j, k);
      ClassBucketsConcat(LocOf(t, ln, po, mm, lang), ps, j, k);
      lines := lines + bucket;
      k := k + 1;
    }
  }

  method LocalizeBucket(t: PpdType, ln: bool, po: Catalog, mm: (string, int) -> string, lang: string,
                        ps: seq<ParamDesc>, j: nat, k: nat)
    returns (lines: seq<Line>)
    ensures lines == Concat(LocOf(t, ln, po, mm, lang), Bucket(ps, j, k))
  {
    lines := [];
    var l := 0;
    while l < |ps|
      invariant l <= |ps|
      invariant lines == Concat(LocOf(t, ln, po, mm, lang), Bucket(ps[..l], j, k))
    {
      BucketSnoc(ps, l, j, k);
      var d := ps[l];
      var shown := Takes(d, j, k);
      if shown {
        var entry := PrintOneLocalization(t, ln, po, mm, lang, d);
        ConcatSnoc(LocOf(t, ln, po, mm, lang), Bucket(ps[..l], j, k), d);
        assert LocOf(t, ln, po, mm, lang)(d) == entry;
        lines := lines + entry;
      } else {
        assert Bucket(ps[..l + 1], j, k) == Bucket(ps[..l], j, k);
      }
      l := l + 1;
    }
    assert ps[..l] == ps;
  }

  // ----- The printer and the main pass -----

  /** What `write_ppd` learns from the driver: whether PrintingMode offers Color, the page-size
      queries, the description of each parameter a section reads, the Quality/Resolution probes
      and the parameter list the generic groups walk. Each parameter is described once, so both
      passes read the same description: the model does not let a description depend on the
      Quality and Resolution settings the code clears between the passes. */
  datatype Printer = Printer(
    isColor: bool,
    lib: Library,
    pageSize: ParamDesc,
    mediaType: ParamDesc,
    inputSlot: ParamDesc,
    quality: ParamDesc,
    resolution: ParamDesc,
    drv: Driver,
    outputOrder: ParamDesc,
    duplex: ParamDesc,
    params: seq<ParamDesc>,
    imageType: ParamDesc,
    constraints: ParamDesc)

  /** `print_page_sizes` reads the PageSize list without checking its type: the driver always
      describes PageSize as a string list. */
  predicate WellFormed(p: Printer)
  {
    p.pageSize.bounds.ListBounds?
  }

  /** The Resolution default the Quality section falls back on for a quality the driver cannot resolve. */
  function ResDefault(p: Printer): string
  {
    if p.resolution.bounds.ListBounds? then p.resolution.bounds.deflt else ""
  }

  function QualityDefault(p: Printer): string
  {
    if p.quality.bounds.ListBounds? then p.quality.bounds.deflt else ""
  }

  /** The Resolution section of the variant `t`; None when a name search exhausts. */
  function ResolutionOf(t: PpdType, po: Catalog, p: Printer): Option<ResOutput>
  {
    ResolutionSection(t == Simplified, t, po, p.drv, QualityOffered(p.quality), QualityDefault(p), p.resolution)
  }

  /** The sections before the generic groups, in the order the main pass writes them
      (genppd.c:2066-2366), the colour setup not included. */
  function FrontLines(t: PpdType, po: Catalog, p: Printer, rs: ResOutput): seq<Line>
    requires WellFormed(p)
  {
    var ps := p.pageSize.bounds.choices;
    PageSizeLines(po, p.lib, p.pageSize, StoredPapers(t == Simplified, |ps|, po, p.lib, ps), VariableSizes(p.lib, ps))
    + MediaTypeSection(t, po, p.mediaType)
    + InputSlotSection(t, po, p.inputSlot)
    + QualitySection(t, po, p.drv, ResDefault(p), p.quality)
    + rs.lines
    + OutputOrderSection(po, p.outputOrder)
    + DuplexSection(po, p.duplex)
    + ShrinkSection(po)
  }

  /** The sections after the generic groups (genppd.c:2418-2461). */
  function BackLines(po: Catalog, p: Printer): seq<Line>
  {
    ImageTypeSection(po, p.imageType) + ConstraintSection(p.constraints)
  }

  /** The main pass of `write_ppd` in the language with catalog `po`, given its Resolution section. */
  function MainLines(t: PpdType, po: Catalog, mm: (string, int) -> string, language: Option<string>,
                     langs: seq<string>, load: string -> Option<Catalog>, p: Printer, rs: ResOutput): seq<Line>
    requires WellFormed(p)
  {
    FrontLines(t, po, p, rs)
    + ClassLines(t, po, mm, language, langs, load, p.params, ClassOutput + 1, MaxLevel(t) + 1)
    + BackLines(po, p)
  }

  /** The main pass; None when the Resolution names run out. */
  method WriteMainPass(t: PpdType, po: Catalog, mm: (string, int) -> string, language: Option<string>,
                       langList: LanguageList, load: string -> Option<Catalog>, p: Printer)
    returns (r: Option<seq<Line>>, rs: Option<ResOutput>)
    requires WellFormed(p)
    requires CCatalog(po) && CatalogsC(load)
    requires langList.Valid() && langList.langs == Some(SplitAt(langList.allLinguas, ' '))
    modifies langList
    ensures langList.Valid() && langList.langs == Some(SplitAt(langList.allLinguas, ' '))
    ensures rs == ResolutionOf(t, po, p)
    ensures r.Some? <==> rs.Some?
    ensures rs.Some? ==> r == Some(MainLines(t, po, mm, language, SplitAt(langList.allLinguas, ' '), load, p, rs.value))
  {
    var front;
    front, rs := WriteFront(t, po, p);
    if rs.None? {
      return None, rs;
    }
    var groups := PrintOptionGroups(t, po, mm, language, langList, load, p.params);
    var presets := PrintImageType(po, p.imageType);
    var constraints := PrintConstraints(p.constraints);
    MainAssembled(t, po, mm, language, SplitAt(langList.allLinguas, ' '), load, p, rs.value, front, groups, presets, constraints);
    r := Some(front + groups + (presets + constraints));
  }

  /** The main pass is the front sections, the groups and the back sections. */
  lemma MainAssembled(t: PpdType, po: Catalog, mm: (string, int) -> string, language: Option<string>,
                      langs: seq<string>, load: string -> Option<Catalog>, p: Printer, rs: ResOutput,
                      front: seq<Line>, groups: seq<Line>, presets: seq<Line>, constraints: seq<Line>)
    requires WellFormed(p)
    requires front == FrontLines(t, po, p, rs)
    requires groups == ClassLines(t, po, mm, language, langs, load, p.params, ClassOutput + 1, MaxLevel(t) + 1)
    requires presets == ImageTypeSection(po, p.imageType) && constraints == ConstraintSection(p.constraints)
    ensures front + groups + (presets + constraints) == MainLines(t, po, mm, language, langs, load, p, rs)
  {
  }

  /** The sections before the generic groups. */
  method WriteFront(t: PpdType, po: Catalog, p: Printer) returns (lines: seq<Line>, rs: Option<ResOutput>)
    requires WellFormed(p)
    ensures rs == ResolutionOf(t, po, p)
    ensures rs.Some? ==> lines == FrontLines(t, po, p, rs.value)
  {
    var pages := PrintPageSizes(t == Simplified, po, p.lib, p.pageSize);
    var media := PrintPickOne("MediaType", "Media Type", t, po, p.mediaType, MediaTypeCode);
    var slots := PrintPickOne("InputSlot", "Media Source", t, po, p.inputSlot, InputSlotCode);
    var quality := PrintQuality(t, po, p.drv, ResDefault(p), p.quality);
    rs := PrintResolution(t == Simplified, t, po, p.drv, QualityOffered(p.quality), QualityDefault(p), p.resolution);
    lines := [];
    if rs.Some? {
      var duplex := PrintDuplex(po, p.duplex);
      lines := pages + media + slots + quality + rs.value.lines + OutputOrderSection(po, p.outputOrder) + duplex + ShrinkSection(po);
    }
  }

  // ----- The localization pass -----

  /** What the localization pass writes into `lang` with catalog `lpo` (genppd.c:2479-2722). */
  function LanguageBlock(t: PpdType, ln: bool, lpo: Catalog, mm: (string, int) -> string, lang: string,
                         p: Printer, rs: ResOutput): seq<Line>
  {
    LocFront(t, lpo, lang, p)
    + LocMiddle(t, lpo, lang, p, rs)
    + Concat(LocOf(t, ln, lpo, mm, lang), ListedParams(t, p.params))
    + LocImageType(lang, p.imageType)
  }

  /** The page sizes, colour model, MediaType, InputSlot and Quality translations. */
  function LocFront(t: PpdType, lpo: Catalog, lang: string, p: Printer): seq<Line>
  {
    LocPre(t, lpo, lang, p) + LocLists(lpo, lang, p) + LocQuality(lpo, lang, p.quality)
  }

  /** The page sizes and the colour model. */
  function LocPre(t: PpdType, lpo: Catalog, lang: string, p: Printer): seq<Line>
  {
    LocalizedPageSizeLines(t == Simplified, lpo, p.lib, lang, PageChoices(p))
    + LocColorModel(lpo, lang, p.isColor, t == Simplified)
  }

  /** The MediaType and InputSlot entries. */
  function LocLists(lpo: Catalog, lang: string, p: Printer): seq<Line>
  {
    LocPickOne("MediaType", "Media Type", lpo, lang, p.mediaType)
    + LocPickOne("InputSlot", "Media Source", lpo, lang, p.inputSlot)
  }

  /** The Resolution, OutputOrder, Duplex and shrink translations. */
  function LocMiddle(t: PpdType, lpo: Catalog, lang: string, p: Printer, rs: ResOutput): seq<Line>
  {
    LocResolution(t == Simplified, lpo, lang, p.resolution, rs.automatic, rs.entries)
    + LocOutputOrder(lpo, lang, p.outputOrder)
    + LocDuplex(lpo, lang, p.duplex)
    + LocShrink(lpo, lang)
  }

  function PageChoices(p: Printer): seq<StringOpt>
  {
    if p.pageSize.bounds.ListBounds? then p.pageSize.bounds.choices else []
  }

  lemma PageSizesNoQuality(t: PpdType, lpo: Catalog, lang: string, p: Printer)
    ensures Translations(LocalizedPageSizeLines(t == Simplified, lpo, p.lib, lang, PageChoices(p)), lang, "StpQuality") == []
  {
    var cs := PageChoices(p);
    var heads := [Localized(lang, "Translation", "PageSize", Tr(lpo, "Media Size")),
                  Localized(lang, "Translation", "PageRegion", Tr(lpo, "Media Size"))];
    assert "Translation"[0] != "StpQuality"[0] && "PageSize"[0] != "StpQuality"[0] && "PageRegion"[0] != "StpQuality"[0];
    TranslationsNone(heads, lang, "StpQuality");
    PaperTranslationsElsewhere(t == Simplified, |cs|, lpo, p.lib, lang, cs, "StpQuality");
    TranslationsAppend(heads, PaperTranslations(t == Simplified, |cs|, lpo, p.lib, lang, cs), lang, "StpQuality");
  }

  lemma ColorModelNoQuality(lpo: Catalog, lang: string, isColor: bool, simplified: bool)
    ensures Translations(LocColorModel(lpo, lang, isColor, simplified), lang, "StpQuality") == []
  {
    BaseNoQuality(lpo, lang);
    SpacesNoQuality(lpo, lang);
    PrecisionNoQuality(lpo, lang);
    Translations3(ColorModelBase(lpo, lang), if isColor then ColorSpaces(lpo, lang) else [],
      if !simplified then ColorPrecision(lpo, lang) else [], lang, "StpQuality");
  }

  lemma BaseNoQuality(lpo: Catalog, lang: string)
    ensures Translations(ColorModelBase(lpo, lang), lang, "StpQuality") == []
  {
    var a := ColorModelBase(lpo, lang);
    assert "Translation"[0] != "StpQuality"[0] && "ColorModel"[0] != "StpQuality"[0];
    assert a == [a[0]] + [a[1]] + [a[2]];
    Translations3([a[0]], [a[1]], [a[2]], lang, "StpQuality");
  }

  lemma SpacesNoQuality(lpo: Catalog, lang: string)
    ensures Translations(ColorSpaces(lpo, lang), lang, "StpQuality") == []
  {
    var b := ColorSpaces(lpo, lang);
    assert "ColorModel"[0] != "StpQuality"[0];
    assert b == [b[0]] + [b[1]] + ([b[2]] + [b[3]]);
    TranslationsAppend([b[2]], [b[3]], lang, "StpQuality");
    Translations3([b[0]], [b[1]], [b[2]] + [b[3]], lang, "StpQuality");
  }

  lemma PrecisionNoQuality(lpo: Catalog, lang: string)
    ensures Translations(ColorPrecision(lpo, lang), lang, "StpQuality") == []
  {
    var c := ColorPrecision(lpo, lang);
    assert "Translation"[0] != "StpQuality"[0] && "StpColorPrecision"[3] != "StpQuality"[3];
    assert c == [c[0]] + [c[1]] + [c[2]];
    Translations3([c[0]], [c[1]], [c[2]], lang, "StpQuality");
  }

  lemma PickOneNoQuality(key: string, title: string, lpo: Catalog, lang: string, d: ParamDesc)
    requires key == "MediaType" || key == "InputSlot"
    ensures Translations(LocPickOne(key, title, lpo, lang, d), lang, "StpQuality") == []
  {
    if Offered(d) {
      var head := [TranslationTitle(lang, key, Tr(lpo, title))];
      assert "Translation"[0] != "StpQuality"[0] && key[0] != "StpQuality"[0];
      TranslationsNone(head, lang, "StpQuality");
      LocChoicesElsewhere(lpo, lang, key, d.bounds.choices, "StpQuality");
      TranslationsAppend(head, LocChoices(lpo, lang, key, d.bounds.choices), lang, "StpQuality");
    }
  }

  /** No translation before the Quality block is under StpQuality. */
  lemma FrontBeforeQuality(t: PpdType, lpo: Catalog, lang: string, p: Printer)
    ensures Translations(LocPre(t, lpo, lang, p), lang, "StpQuality") == []
    ensures Translations(LocLists(lpo, lang, p), lang, "StpQuality") == []
  {
    PageSizesNoQuality(t, lpo, lang, p);
    ColorModelNoQuality(lpo, lang, p.isColor, t == Simplified);
    TranslationsAppend(LocalizedPageSizeLines(t == Simplified, lpo, p.lib, lang, PageChoices(p)),
      LocColorModel(lpo, lang, p.isColor, t == Simplified), lang, "StpQuality");
    PickOneNoQuality("MediaType", "Media Type", lpo, lang, p.mediaType);
    PickOneNoQuality("InputSlot", "Media Source", lpo, lang, p.inputSlot);
    TranslationsAppend(LocPickOne("MediaType", "Media Type", lpo, lang, p.mediaType),
      LocPickOne("InputSlot", "Media Source", lpo, lang, p.inputSlot), lang, "StpQuality");
  }

  /** Up to the Quality block, the localization pass translates under StpQuality exactly the
      values the main pass declares there. */
  lemma FrontQualityTranslations(t: PpdType, po: Catalog, lpo: Catalog, lang: string, p: Printer)
    ensures Translations(LocFront(t, lpo, lang, p), lang, "StpQuality")
      == Declarations(QualitySection(t, po, p.drv, ResDefault(p), p.quality), "StpQuality")
  {
    FrontBeforeQuality(t, lpo, lang, p);
    Translations3(LocPre(t, lpo, lang, p), LocLists(lpo, lang, p), LocQuality(lpo, lang, p.quality), lang, "StpQuality");
    QualityParity(t, po, lpo, p.drv, ResDefault(p), lang, p.quality);
  }

  /** A language gets a block unless it is C or en or has no catalog (genppd.c:2474-2478). */
  predicate GetsBlock(lang: string, load: string -> Option<Catalog>)
  {
    lang != "C" && lang != "en" && load(lang).Some?
  }

  function LanguageLines(t: PpdType, ln: bool, mm: (string, int) -> string, p: Printer, rs: ResOutput,
                         load: string -> Option<Catalog>, lang: string): seq<Line>
  {
    if GetsBlock(lang, load) then LanguageBlock(t, ln, load(lang).value, mm, lang, p, rs) else []
  }

  /** The localization pass over `langs`, in list order. */
  function LocalizationPass(t: PpdType, ln: bool, mm: (string, int) -> string, p: Printer, rs: ResOutput,
                            load: string -> Option<Catalog>, langs: seq<string>): seq<Line>
  {
    if |langs| == 0 then []
    else LocalizationPass(t, ln, mm, p, rs, load, langs[..|langs| - 1]) + LanguageLines(t, ln, mm, p, rs, load, langs[|langs| - 1])
  }

  /** The languages of `langs` that get a block, in list order. */
  function LocalizedLanguages(langs: seq<string>, load: string -> Option<Catalog>): seq<string>
  {
    if |langs| == 0 then []
    else LocalizedLanguages(langs[..|langs| - 1], load) + (if GetsBlock(langs[|langs| - 1], load) then [langs[|langs| - 1]] else [])
  }

  /** The blocks of the languages `ls`, one after the other. */
  function Blocks(t: PpdType, ln: bool, mm: (string, int) -> string, p: Printer, rs: ResOutput,
                  load: string -> Option<Catalog>, ls: seq<string>): seq<Line>
    requires forall i :: 0 <= i < |ls| ==> load(ls[i]).Some?
  {
    if |ls| == 0 then []
    else Blocks(t, ln, mm, p, rs, load, ls[..|ls| - 1]) + LanguageBlock(t, ln, load(ls[|ls| - 1]).value, mm, ls[|ls| - 1], p, rs)
  }

  /** The localization pass for one language. */
  method LocalizeLanguage(t: PpdType, ln: bool, lpo: Catalog, mm: (string, int) -> string, lang: string,
                          p: Printer, rs: ResOutput) returns (lines: seq<Line>)
    ensures lines == LanguageBlock(t, ln, lpo, mm, lang, p, rs)
  {
    var front := LocalizeFront(t, lpo, lang, p);
    var middle := LocalizeMiddle(t, lpo, lang, p, rs);
    var options := LocalizeOptions(t, ln, lpo, mm, lang, p.params);
    var presets := LocalizeImageType(lang, p.imageType);
    lines := front + middle + options + presets;
  }

  method LocalizeFront(t: PpdType, lpo: Catalog, lang: string, p: Printer) returns (lines: seq<Line>)
    ensures lines == LocFront(t, lpo, lang, p)
  {
    var pages := LocalizePageSizes(t == Simplified, lpo, p.lib, lang, PageChoices(p));
    var media := LocalizePickOne("MediaType", "Media Type", lpo, lang, p.mediaType);
    var slots := LocalizePickOne("InputSlot", "Media Source", lpo, lang, p.inputSlot);
    var quality := LocalizeQuality(lpo, lang, p.quality);
    lines := (pages + LocColorModel(lpo, lang, p.isColor, t == Simplified)) + (media + slots) + quality;
  }

  method LocalizeMiddle(t: PpdType, lpo: Catalog, lang: string, p: Printer, rs: ResOutput) returns (lines: seq<Line>)
    ensures lines == LocMiddle(t, lpo, lang, p, rs)
  {
    var res := LocalizeResolution(t == Simplified, lpo, lang, p.resolution, rs.automatic, rs.entries);
    var duplex := LocalizeDuplex(lpo, lang, p.duplex);
    lines := res + LocOutputOrder(lpo, lang, p.outputOrder) + duplex + LocShrink(lpo, lang);
  }

  /** The loop over the languages (genppd.c:2472-2723). */
  method LocalizeAll(t: PpdType, ln: bool, mm: (string, int) -> string, p: Printer, rs: ResOutput,
                     load: string -> Option<Catalog>, langs: seq<string>) returns (lines: seq<Line>)
    ensures lines == LocalizationPass(t, ln, mm, p, rs, load, langs)
  {
    lines := [];
    var i := 0;
    while i < |langs|
      invariant i <= |langs|
      invariant lines == LocalizationPass(t, ln, mm, p, rs, load, langs[..i])
    {
      var block := LocalizeIfCatalog(t, ln, mm, p, rs, load, langs[i]);
      PassStep(t, ln, mm, p, rs, load, langs, i);
      lines := lines + block;
      i := i + 1;
    }
    assert langs[..i] == langs;
  }

  /** The pass over one more language adds that language's lines. */
  lemma PassStep(t: PpdType, ln: bool, mm: (string, int) -> string, p: Printer, rs: ResOutput,
                 load: string -> Option<Catalog>, langs: seq<string>, i: nat)
    requires i < |langs|
    ensures LocalizationPass(t, ln, mm, p, rs, load, langs[..i + 1])
      == LocalizationPass(t, ln, mm, p, rs, load, langs[..i]) + LanguageLines(t, ln, mm, p, rs, load, langs[i])
  {
    assert langs[..i + 1][..i] == langs[..i];
  }

  /** One language of the loop: skipped when it is C or en or has no catalog. */
  method LocalizeIfCatalog(t: PpdType, ln: bool, mm: (string, int) -> string, p: Printer, rs: ResOutput,
                           load: string -> Option<Catalog>, lang: string) returns (block: seq<Line>)
    ensures block == LanguageLines(t, ln, mm, p, rs, load, lang)
  {
    block := [];
    if lang != "C" && lang != "en" {
      var lpo := load(lang);
      if lpo.Some? {
        block := LocalizeLanguage(t, ln, lpo.value, mm, lang, p, rs);
      }
    }
  }

  /** A language gets a block exactly when it is in the list, is neither C nor en, and has a catalog. */
  lemma {:induction false} LocalizedExactly(langs: seq<string>, load: string -> Option<Catalog>, x: string)
    ensures x in LocalizedLanguages(langs, load) <==> x in langs && GetsBlock(x, load)
    decreases |langs|
  {
    if |langs| > 0 {
      var front := langs[..|langs| - 1];
      LocalizedExactly(front, load, x);
      assert langs == front + [langs[|langs| - 1]];
    }
  }

  /** The localization pass is the blocks of the languages that get one, in list order. */
  lemma {:induction false} PassIsBlocks(t: PpdType, ln: bool, mm: (string, int) -> string, p: Printer, rs: ResOutput,
                                        load: string -> Option<Catalog>, langs: seq<string>)
    ensures forall i :: 0 <= i < |LocalizedLanguages(langs, load)| ==> load(LocalizedLanguages(langs, load)[i]).Some?
    ensures LocalizationPass(t, ln, mm, p, rs, load, langs) == Blocks(t, ln, mm, p, rs, load, LocalizedLanguages(langs, load))
    decreases |langs|
  {
    if |langs| > 0 {
      var front := langs[..|langs| - 1];
      var lang := langs[|langs| - 1];
      PassIsBlocks(t, ln, mm, p, rs, load, front);
      var ls := LocalizedLanguages(front, load);
      if GetsBlock(lang, load) {
        assert LocalizedLanguages(langs, load) == ls + [lang];
        assert (ls + [lang])[..|ls|] == ls;
      } else {
        assert LocalizedLanguages(langs, load) == ls;
      }
    }
  }

  // ----- The whole document -----

  /** The modelled part of the PPD `write_ppd` writes for the variant `t` in `language` (None for
      the globalized PPD, which carries every language's translations); None when the Resolution
      names run out and the code would loop. */
  function PpdLines(t: PpdType, ln: bool, po: Catalog, mm: (string, int) -> string, language: Option<string>,
                    langs: seq<string>, load: string -> Option<Catalog>, p: Printer): Option<seq<Line>>
    requires WellFormed(p)
  {
    var rs := ResolutionOf(t, po, p);
    if rs.None? then None
    else Some(MainLines(t, po, mm, language, langs, load, p, rs.value)
              + (if language.None? then LocalizationPass(t, ln, mm, p, rs.value, load, langs) else []))
  }

  /** `write_ppd` (genppd.c:1925-2740) in its corrected form: the language list first, then the
      main pass, then, for the globalized PPD, the localization pass. */
  method WritePpd(t: PpdType, ln: bool, po: Catalog, mm: (string, int) -> string, language: Option<string>,
                  langList: LanguageList, load: string -> Option<Catalog>, p: Printer) returns (doc: Option<seq<Line>>)
    requires WellFormed(p)
    requires CCatalog(po) && CatalogsC(load)
    requires langList.Valid()
    modifies langList
    ensures langList.Valid() && langList.langs == Some(SplitAt(langList.allLinguas, ' '))
    ensures doc == PpdLines(t, ln, po, mm, language, SplitAt(langList.allLinguas, ' '), load, p)
  {
    var all := langList.GetLangs();
    var main, rs := WriteMainPass(t, po, mm, language, langList, load, p);
    if main.None? {
      return None;
    }
    var whole := FinishPpd(t, ln, po, mm, language, all, load, p, rs.value, main.value);
    doc := Some(whole);
  }

  /** The localization pass of the globalized PPD after the main pass. */
  method FinishPpd(t: PpdType, ln: bool, po: Catalog, mm: (string, int) -> string, language: Option<string>,
                   langs: seq<string>, load: string -> Option<Catalog>, p: Printer, rs: ResOutput, main: seq<Line>)
    returns (whole: seq<Line>)
    requires WellFormed(p) && ResolutionOf(t, po, p) == Some(rs)
    requires main == MainLines(t, po, mm, language, langs, load, p, rs)
    ensures PpdLines(t, ln, po, mm, language, langs, load, p) == Some(whole)
  {
    var loc: seq<Line> := [];
    if language.None? {
      loc := LocalizeAll(t, ln, mm, p, rs, load, langs);
    }
    PpdAssembled(t, ln, po, mm, language, langs, load, p, rs, main, loc);
    whole := main + loc;
  }

  /** The document is the main pass followed, for the globalized PPD, by the localization pass. */
  lemma PpdAssembled(t: PpdType, ln: bool, po: Catalog, mm: (string, int) -> string, language: Option<string>,
                     langs: seq<string>, load: string -> Option<Catalog>, p: Printer, rs: ResOutput,
                     main: seq<Line>, loc: seq<Line>)
    requires WellFormed(p) && ResolutionOf(t, po, p) == Some(rs)
    requires main == MainLines(t, po, mm, language, langs, load, p, rs)
    requires loc == if language.None? then LocalizationPass(t, ln, mm, p, rs, load, langs) else []
    ensures PpdLines(t, ln, po, mm, language, langs, load, p) == Some(main + loc)
  {
  }
}
