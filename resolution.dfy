/** Presentable resolution names: clamping a raw (x, y) dpi pair to the safety ceilings,
    the "<x>dpi" / "<x>x<y>dpi" names, and the collision search of `write_ppd`. */
module Resolution {
  import opened Text

  /** Above these, some applications misbehave (genppd.c:95-96). */
  const MaxSafeY: int := 720
  const MaxSafeX: int := 1500

  /** Length of the candidate cycle once x has reached its ceiling: 1500, 750, 751, ..., 1499. */
  const CycleLength: nat := 751

  /** A resolution pair in dots per inch. */
  datatype Dpi = Dpi(x: int, y: int)

  /** `v` halved (C integer division) `k` times. */
  function HalveN(v: int, k: nat): int
  {
    if k == 0 then v else HalveN(v, k - 1) / 2
  }

  /** How many times `while (v > ceiling) v /= 2` halves `v`. */
  function Halvings(v: int, ceiling: int): nat
    requires ceiling > 0
    decreases v
  {
    if v > ceiling then 1 + Halvings(v / 2, ceiling) else 0
  }

  /** The value `while (v > ceiling) v /= 2` leaves. */
  function Clamp(v: int, ceiling: int): int
    requires ceiling > 0
    decreases v
  {
    if v > ceiling then Clamp(v / 2, ceiling) else v
  }

  lemma {:induction false} HalveNShift(v: int, k: nat)
    ensures HalveN(v / 2, k) == HalveN(v, k + 1)
  {
    if k > 0 {
      HalveNShift(v, k - 1);
    }
  }

  /** The clamped value is within the ceiling, is reached only by halving, is the first value
      of the halving chain within the ceiling, and is the input itself when that was already
      within the ceiling.  A positive input stays positive. */
  lemma {:induction false} ClampProperties(v: int, ceiling: int)
    requires ceiling > 0
    ensures Clamp(v, ceiling) <= ceiling
    ensures v <= ceiling ==> Clamp(v, ceiling) == v
    ensures Clamp(v, ceiling) == HalveN(v, Halvings(v, ceiling))
    ensures forall j :: 0 <= j < Halvings(v, ceiling) ==> HalveN(v, j) > ceiling
    ensures v > 0 ==> Clamp(v, ceiling) > 0
    decreases v
  {
    if v > ceiling {
      ClampProperties(v / 2, ceiling);
      HalveNShift(v, Halvings(v / 2, ceiling));
      forall j | 0 <= j < Halvings(v, ceiling)
        ensures HalveN(v, j) > ceiling
      {
        if j > 0 {
          HalveNShift(v, j - 1);
        }
      }
    }
  }

  /** The clamping loop of genppd.c:2270-2275 for one axis. */
  method ClampAxis(v: int, ceiling: int) returns (r: int)
    requires ceiling > 0
    ensures r == Clamp(v, ceiling)
  {
    r := v;
    while r > ceiling
      invariant Clamp(r, ceiling) == Clamp(v, ceiling)
      decreases r
    {
      r := r / 2;
    }
  }

  /** Both axes clamped to their ceilings. */
  function ClampPair(raw: Dpi): (c: Dpi)
    ensures c.x <= MaxSafeX && c.y <= MaxSafeY
  {
    ClampProperties(raw.x, MaxSafeX);
    ClampProperties(raw.y, MaxSafeY);
    Dpi(Clamp(raw.x, MaxSafeX), Clamp(raw.y, MaxSafeY))
  }

  /** `snprintf(res_name, 63, "%ddpi" or "%dx%ddpi", ...)`. */
  function ResName(x: int, y: int): string
  {
    if x == y then IntToString(x) + "dpi" else IntToString(x) + "x" + IntToString(y) + "dpi"
  }

  function NameOf(c: Dpi): string
  {
    ResName(c.x, c.y)
  }

  lemma NoXInNumber(i: int)
    ensures 'x' !in IntToString(i)
  {
    IntToStringChars(i);
  }

  /** The short form "<x>dpi" is used exactly when both axes agree: the name holds an 'x'
      separator if and only if they differ. */
  lemma ResNameShape(x: int, y: int)
    ensures x == y <==> 'x' !in ResName(x, y)
    ensures x == y ==> ResName(x, y) == IntToString(x) + "dpi"
    ensures x != y ==> ResName(x, y) == IntToString(x) + "x" + IntToString(y) + "dpi"
  {
    NoXInNumber(x);
    NoXInNumber(y);
    if x != y {
      assert ResName(x, y)[|IntToString(x)|] == 'x';
    }
  }

  /** The first 'x' of a + "x" + s is the one after `a`, when `a` holds none. */
  lemma {:induction false} FirstX(a: string, s: string)
    requires 'x' !in a
    ensures IndexOf(a + "x" + s, 'x') == |a|
    decreases |a|
  {
    if |a| > 0 {
      assert (a + "x" + s)[1..] == a[1..] + "x" + s;
      FirstX(a[1..], s);
    }
  }

  lemma PrefixBeforeX(a: string, b: string, s: string, t: string)
    requires 'x' !in a && 'x' !in b
    requires a + "x" + s == b + "x" + t
    ensures a == b && s == t
  {
    var u := a + "x" + s;
    FirstX(a, s);
    FirstX(b, t);
    assert a == u[..|a|] == b;
    assert s == u[|a| + 1..] == t;
  }

  lemma SuffixDpi(a: string, b: string)
    requires a + "dpi" == b + "dpi"
    ensures a == b
  {
    assert a == (a + "dpi")[..|a|];
    assert b == (b + "dpi")[..|b|];
  }

  /** Distinct pairs get distinct names. */
  lemma ResNameInjective(x1: int, y1: int, x2: int, y2: int)
    requires ResName(x1, y1) == ResName(x2, y2)
    ensures x1 == x2 && y1 == y2
  {
    ResNameShape(x1, y1);
    ResNameShape(x2, y2);
    NoXInNumber(x1);
    NoXInNumber(x2);
    NoXInNumber(y1);
    NoXInNumber(y2);
    if x1 == y1 {
      SuffixDpi(IntToString(x1), IntToString(x2));
      IntToStringInjective(x1, x2);
    } else {
      var a1, b1, a2, b2 := IntToString(x1), IntToString(y1), IntToString(x2), IntToString(y2);
      assert a1 + "x" + b1 + "dpi" == a1 + "x" + (b1 + "dpi");
      assert a2 + "x" + b2 + "dpi" == a2 + "x" + (b2 + "dpi");
      PrefixBeforeX(a1, a2, b1 + "dpi", b2 + "dpi");
      SuffixDpi(IntToString(y1), IntToString(y2));
      IntToStringInjective(x1, x2);
      IntToStringInjective(y1, y2);
    }
  }

  /** The tie-break of genppd.c:2289-2298 after a collision. */
  function Next(c: Dpi): Dpi
  {
    if c.y > c.x && c.y < MaxSafeY then c.(y := c.y + 1)
    else if c.x < MaxSafeX then c.(x := c.x + 1)
    else c.(x := c.x / 2)
  }

  /** Exactly one axis changes, in the fixed order: grow y toward its ceiling while it is the
      larger axis, else grow x toward its ceiling, else halve x; the ceilings stay respected. */
  lemma NextTieBreak(c: Dpi)
    requires c.x <= MaxSafeX && c.y <= MaxSafeY
    ensures c.y > c.x && c.y < MaxSafeY ==> Next(c) == Dpi(c.x, c.y + 1)
    ensures !(c.y > c.x && c.y < MaxSafeY) && c.x < MaxSafeX ==> Next(c) == Dpi(c.x + 1, c.y)
    ensures !(c.y > c.x && c.y < MaxSafeY) && c.x >= MaxSafeX ==> Next(c) == Dpi(MaxSafeX / 2, c.y)
    ensures Next(c).x <= MaxSafeX && Next(c).y <= MaxSafeY
  {
    // Follows by unfolding `Next`: each ensures is one of its three branches.
  }

  /** The k-th candidate of the search. */
  function Iterate(c: Dpi, k: nat): Dpi
    decreases k
  {
    if k == 0 then c else Iterate(Next(c), k - 1)
  }

  /** The do-while loop of genppd.c:2276-2299, stopped after `fuel` candidates:
      the first candidate whose name is free (or any candidate at all, when `exempt`). */
  function Settle(c: Dpi, exempt: bool, used: seq<string>, fuel: nat): Option<Dpi>
    decreases fuel
  {
    if fuel == 0 then None
    else if exempt || NameOf(c) !in used then Some(c)
    else Settle(Next(c), exempt, used, fuel - 1)
  }

  /** What the search settles on is a candidate within the ceilings, and its name is free
      unless the option is exempt; an exempt option takes its first candidate. */
  lemma {:induction false} SettleResult(c: Dpi, exempt: bool, used: seq<string>, fuel: nat)
    requires c.x <= MaxSafeX && c.y <= MaxSafeY
    requires Settle(c, exempt, used, fuel).Some?
    ensures Settle(c, exempt, used, fuel).value.x <= MaxSafeX && Settle(c, exempt, used, fuel).value.y <= MaxSafeY
    ensures !exempt ==> NameOf(Settle(c, exempt, used, fuel).value) !in used
    ensures exempt ==> Settle(c, exempt, used, fuel).value == c
    decreases fuel
  {
    if !(exempt || NameOf(c) !in used) {
      NextTieBreak(c);
      SettleResult(Next(c), exempt, used, fuel - 1);
    }
  }

  /** Candidates until x first reaches its ceiling. */
  function StepsToTop(c: Dpi): nat
    requires c.x <= MaxSafeX && c.y <= MaxSafeY
    decreases (MaxSafeY - c.y) + (MaxSafeX - c.x)
  {
    if c.x >= MaxSafeX then 0 else 1 + StepsToTop(Next(c))
  }

  /** Candidates the model examines before declaring the name space exhausted. */
  function SearchBound(c: Dpi): nat
    requires c.x <= MaxSafeX && c.y <= MaxSafeY
  {
    StepsToTop(c) + CycleLength
  }

  /** The search of genppd.c:2276-2299 for one option, on the clamped pair `start`. */
  method Disambiguate(start: Dpi, exempt: bool, used: seq<string>) returns (found: bool, name: string, c: Dpi)
    requires start.x <= MaxSafeX && start.y <= MaxSafeY
    ensures found <==> Settle(start, exempt, used, SearchBound(start)).Some?
    ensures found ==> c == Settle(start, exempt, used, SearchBound(start)).value
    ensures found ==> name == NameOf(c) && (exempt || name !in used)
  {
    ghost var target := Settle(start, exempt, used, SearchBound(start));
    var budget := SearchBound(start);
    c := start;
    found := false;
    name := NameOf(c);
    while !found && budget > 0
      invariant !found ==> Settle(c, exempt, used, budget) == target
      invariant found ==> target == Some(c) && name == NameOf(c) && (exempt || name !in used)
      decreases budget, !found
    {
      name := NameOf(c);
      if exempt || name !in used {
        found := true;
      } else if c.y > c.x && c.y < MaxSafeY {
        c := c.(y := c.y + 1);
        budget := budget - 1;
      } else if c.x < MaxSafeX {
        c := c.(x := c.x + 1);
        budget := budget - 1;
      } else {
        c := c.(x := c.x / 2);
        budget := budget - 1;
      }
    }
  }

  lemma {:induction false} IterateAdd(c: Dpi, a: nat, b: nat)
    ensures Iterate(c, a + b) == Iterate(Iterate(c, a), b)
    decreases a
  {
    if a > 0 {
      IterateAdd(Next(c), a - 1, b);
    }
  }

  lemma {:induction false} IterateBounded(c: Dpi, k: nat)
    requires c.x <= MaxSafeX && c.y <= MaxSafeY
    ensures Iterate(c, k).x <= MaxSafeX && Iterate(c, k).y <= MaxSafeY
    decreases k
  {
    if k > 0 {
      IterateBounded(Next(c), k - 1);
    }
  }

  /** After StepsToTop candidates, x sits at its ceiling. */
  lemma {:induction false} ReachTop(c: Dpi)
    requires c.x <= MaxSafeX && c.y <= MaxSafeY
    ensures Iterate(c, StepsToTop(c)).x == MaxSafeX && Iterate(c, StepsToTop(c)).y <= MaxSafeY
    decreases (MaxSafeY - c.y) + (MaxSafeX - c.x)
  {
    if c.x < MaxSafeX {
      ReachTop(Next(c));
    }
  }

  /** From x in [750, 1500], x climbs one by one while y, below x, stays put. */
  lemma {:induction false} Climb(x: int, y: int, k: nat)
    requires MaxSafeX / 2 <= x && x + k <= MaxSafeX && y <= MaxSafeY
    ensures Iterate(Dpi(x, y), k) == Dpi(x + k, y)
    decreases k
  {
    if k > 0 {
      Climb(x + 1, y, k - 1);
    }
  }

  /** The j-th candidate after x reached its ceiling. */
  lemma CycleMember(y: int, j: nat)
    requires y <= MaxSafeY && j < CycleLength
    ensures Iterate(Dpi(MaxSafeX, y), j) == (if j == 0 then Dpi(MaxSafeX, y) else Dpi(MaxSafeX / 2 + j - 1, y))
  {
    if j > 0 {
      Climb(MaxSafeX / 2, y, j - 1);
    }
  }

  /** From the ceiling, 751 candidates bring the search back to where it was. */
  lemma CycleReturns(y: int)
    requires y <= MaxSafeY
    ensures Iterate(Dpi(MaxSafeX, y), CycleLength) == Dpi(MaxSafeX, y)
  {
    Climb(MaxSafeX / 2, y, CycleLength - 1);
    assert Iterate(Dpi(MaxSafeX, y), CycleLength) == Iterate(Dpi(MaxSafeX / 2, y), CycleLength - 1);
  }

  /** Once x reaches its ceiling the candidates repeat with period 751: every later candidate
      is one of the first 751. */
  lemma {:induction false} CycleFold(y: int, n: nat) returns (r: nat)
    requires y <= MaxSafeY
    ensures r < CycleLength && Iterate(Dpi(MaxSafeX, y), n) == Iterate(Dpi(MaxSafeX, y), r)
    decreases n
  {
    if n < CycleLength {
      r := n;
    } else {
      CycleReturns(y);
      IterateAdd(Dpi(MaxSafeX, y), CycleLength, n - CycleLength);
      r := CycleFold(y, n - CycleLength);
    }
  }

  /** A failed search has found every examined candidate's name taken. */
  lemma {:induction false} FailedMeansTaken(c: Dpi, used: seq<string>, fuel: nat, k: nat)
    requires Settle(c, false, used, fuel).None? && k < fuel
    ensures NameOf(Iterate(c, k)) in used
    decreases k
  {
    if k > 0 {
      FailedMeansTaken(Next(c), used, fuel - 1, k - 1);
    }
  }

  /** A free name among the examined candidates makes the search succeed. */
  lemma {:induction false} FreeMeansFound(c: Dpi, used: seq<string>, fuel: nat, k: nat)
    requires k < fuel && NameOf(Iterate(c, k)) !in used
    ensures Settle(c, false, used, fuel).Some?
    decreases k
  {
    if k == 0 {
      assert Iterate(c, k) == c;
    } else if NameOf(c) in used {
      assert Iterate(c, k) == Iterate(Next(c), k - 1);
      FreeMeansFound(Next(c), used, fuel - 1, k - 1);
      assert Settle(c, false, used, fuel) == Settle(Next(c), false, used, fuel - 1);
    }
  }

  /** A search whose every examined candidate is taken fails. */
  lemma {:induction false} TakenMeansFailed(c: Dpi, used: seq<string>, fuel: nat)
    requires forall k :: 0 <= k < fuel ==> NameOf(Iterate(c, k)) in used
    ensures Settle(c, false, used, fuel).None?
    decreases fuel
  {
    if fuel > 0 {
      assert NameOf(Iterate(c, 0)) in used;
      forall k | 0 <= k < fuel - 1
        ensures NameOf(Iterate(Next(c), k)) in used
      {
        assert NameOf(Iterate(c, k + 1)) in used;
      }
      TakenMeansFailed(Next(c), used, fuel - 1);
    }
  }

  /** A search without exemption fails exactly when every examined candidate's name is taken. */
  lemma SettleFails(c: Dpi, used: seq<string>, fuel: nat)
    ensures Settle(c, false, used, fuel).None? ==> forall k :: 0 <= k < fuel ==> NameOf(Iterate(c, k)) in used
    ensures (forall k :: 0 <= k < fuel ==> NameOf(Iterate(c, k)) in used) ==> Settle(c, false, used, fuel).None?
  {
    if Settle(c, false, used, fuel).None? {
      forall k | 0 <= k < fuel
        ensures NameOf(Iterate(c, k)) in used
      {
        FailedMeansTaken(c, used, fuel, k);
      }
    }
    if forall k :: 0 <= k < fuel ==> NameOf(Iterate(c, k)) in used {
      TakenMeansFailed(c, used, fuel);
    }
  }

  /** Every candidate the unbounded loop would ever reach is one of the first SearchBound ones. */
  lemma EveryCandidateWithinBound(c: Dpi, k: nat) returns (j: nat)
    requires c.x <= MaxSafeX && c.y <= MaxSafeY
    ensures j < SearchBound(c) && Iterate(c, k) == Iterate(c, j)
  {
    var t := StepsToTop(c);
    ReachTop(c);
    var top := Iterate(c, t);
    if k < t {
      j := k;
    } else {
      IterateAdd(c, t, k - t);
      var r := CycleFold(top.y, k - t);
      IterateAdd(c, t, r);
      j := t + r;
    }
  }

  /** When the model gives up, the source's loop would never stop: no number of further
      candidates yields a free name. */
  lemma ExhaustionIsPermanent(c: Dpi, used: seq<string>)
    requires c.x <= MaxSafeX && c.y <= MaxSafeY
    requires Settle(c, false, used, SearchBound(c)).None?
    ensures forall fuel: nat :: Settle(c, false, used, fuel).None?
  {
    SettleFails(c, used, SearchBound(c));
    forall fuel: nat
      ensures Settle(c, false, used, fuel).None?
    {
      forall k | 0 <= k < fuel
        ensures NameOf(Iterate(c, k)) in used
      {
        var j := EveryCandidateWithinBound(c, k);
      }
      SettleFails(c, used, fuel);
    }
  }

  /** The name of the k-th candidate after x dropped to 750. */
  function CycleName(y: int, k: nat): string
  {
    ResName(MaxSafeX / 2 + k, y)
  }

  lemma CycleNameInjective(y: int, j: nat, k: nat)
    requires CycleName(y, j) == CycleName(y, k)
    ensures j == k
  {
    ResNameInjective(MaxSafeX / 2 + j, y, MaxSafeX / 2 + k, y);
  }

  /** The names "<750+k>x<y>dpi" for k < n. */
  function CycleNames(y: int, n: nat): set<string>
  {
    if n == 0 then {} else CycleNames(y, n - 1) + {CycleName(y, n - 1)}
  }

  /** The names "<750+k>x<y>dpi" for k < n are exactly n distinct strings. */
  lemma {:induction false} CycleNamesCount(y: int, n: nat)
    ensures |CycleNames(y, n)| == n
    ensures forall x :: x in CycleNames(y, n) ==> exists k :: 0 <= k < n && CycleName(y, k) == x
    decreases n
  {
    if n > 0 {
      CycleNamesCount(y, n - 1);
      if CycleName(y, n - 1) in CycleNames(y, n - 1) {
        var k :| 0 <= k < n - 1 && CycleName(y, k) == CycleName(y, n - 1);
        CycleNameInjective(y, k, n - 1);
      }
    }
  }

  lemma {:induction false} SeqSetCard(s: seq<string>)
    ensures |set x | x in s| <= |s|
  {
    if |s| > 0 {
      SeqSetCard(s[1..]);
      assert (set x | x in s) == (set x | x in s[1..]) + {s[0]};
    }
  }

  /** The candidate "<750+k>x<y>dpi" of the final cycle is among the first SearchBound ones. */
  lemma CycleSlot(c: Dpi, k: nat) returns (j: nat)
    requires c.x <= MaxSafeX && c.y <= MaxSafeY && k < CycleLength
    ensures j < CycleLength
    ensures Iterate(c, StepsToTop(c) + j) == Dpi(MaxSafeX / 2 + k, Iterate(c, StepsToTop(c)).y)
  {
    var t := StepsToTop(c);
    ReachTop(c);
    var top := Iterate(c, t);
    j := if k == CycleLength - 1 then 0 else k + 1;
    CycleMember(top.y, j);
    IterateAdd(c, t, j);
  }

  /** If every candidate within the bound is taken, so is every name of the final cycle. */
  lemma CycleNamesTaken(c: Dpi, used: seq<string>)
    requires c.x <= MaxSafeX && c.y <= MaxSafeY
    requires forall k :: 0 <= k < SearchBound(c) ==> NameOf(Iterate(c, k)) in used
    ensures StepsToTop(c) <= SearchBound(c)
    ensures forall k :: 0 <= k < CycleLength ==> CycleName(Iterate(c, StepsToTop(c)).y, k) in used
  {
    var t := StepsToTop(c);
    var y := Iterate(c, t).y;
    forall k | 0 <= k < CycleLength
      ensures CycleName(y, k) in used
    {
      var j := CycleSlot(c, k);
      assert NameOf(Iterate(c, t + j)) in used;
    }
  }

  /** With fewer than 751 names in use, the search always finds a free name within the bound. */
  lemma RoomMeansSuccess(c: Dpi, used: seq<string>)
    requires c.x <= MaxSafeX && c.y <= MaxSafeY
    requires |used| < CycleLength
    ensures Settle(c, false, used, SearchBound(c)).Some?
  {
    if Settle(c, false, used, SearchBound(c)).None? {
      SettleFails(c, used, SearchBound(c));
      CycleNamesTaken(c, used);
      var y := Iterate(c, StepsToTop(c)).y;
      var names := CycleNames(y, CycleLength);
      CycleNamesCount(y, CycleLength);
      SeqSetCard(used);
      assert names <= set x | x in used;
      Subcard(names, set x | x in used);
    }
  }

  lemma Subcard(a: set<string>, b: set<string>)
    requires a <= b
    ensures |a| <= |b|
  {
    if a != {} {
      var x :| x in a;
      Subcard(a - {x}, b - {x});
    }
  }
}
