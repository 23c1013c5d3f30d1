/** Which PPD variants are generated for a printer model: the bit mask `which_ppds` the command
    line sets (genppd.c:466, 519-527) and `generate_model_ppds` (genppd.c:656-669), which
    writes the variants the mask asks for and stops at the first that fails. */
module Variants {
  import opened Ppd

  /** The mask bit of each variant: 1 simplified, 2 standard, 4 without color options. */
  function Flag(t: PpdType): nat
  {
    match t
    case Simplified => 1
    case Standard => 2
    case NoColorOpts => 4
  }

  /** `which & Flag(t)` is non-zero. Dafny's division by a positive constant rounds toward
      minus infinity, so this is the bit of the two's complement mask for negative masks too. */
  predicate Asked(which: int, t: PpdType)
  {
    (which / Flag(t)) % 2 == 1
  }

  /** The mask without options: the standard PPD only. */
  const DefaultMask: int := 2

  /** The mask after one of the options that choose variants: `-s` simplified only, `-a` simplified
      and standard, `-C` adds the variant without color options; any other option keeps it. */
  function ApplyOption(which: int, c: char): int
  {
    if c == 's' then 1
    else if c == 'a' then 3
    else if c == 'C' then (if Asked(which, NoColorOpts) then which else which + 4)
    else which
  }

  /** The variants the mask asks for, in the order `generate_model_ppds` writes them. */
  function Requested(which: int): seq<PpdType>
  {
    (if Asked(which, Simplified) then [Simplified] else [])
    + (if Asked(which, Standard) then [Standard] else [])
    + (if Asked(which, NoColorOpts) then [NoColorOpts] else [])
  }

  /** The variants `generate_ppd` is called for when `fails` says which calls return non-zero:
      the requested ones up to and including the first that fails. */
  function Attempted(rs: seq<PpdType>, fails: PpdType -> bool): seq<PpdType>
  {
    if |rs| == 0 then []
    else if fails(rs[0]) then [rs[0]]
    else [rs[0]] + Attempted(rs[1..], fails)
  }

  /** `generate_model_ppds`; `fails(t)` stands for `generate_ppd` returning non-zero for the
      variant `t`. */
  method GenerateModelPpds(which: int, fails: PpdType -> bool) returns (status: int, attempted: seq<PpdType>)
    ensures attempted == Attempted(Requested(which), fails)
    ensures status == 0 || status == 1
    ensures status == 1 <==> exists t :: t in Requested(which) && fails(t)
  {
    status, attempted := 0, [];
    if which % 2 == 1 {
      attempted := attempted + [Simplified];
      if fails(Simplified) {
        status := 1;
        return;
      }
    }
    if (which / 2) % 2 == 1 {
      attempted := attempted + [Standard];
      if fails(Standard) {
        status := 1;
        return;
      }
    }
    if (which / 4) % 2 == 1 {
      AttemptedAfter(attempted, [NoColorOpts], fails);
      attempted := attempted + [NoColorOpts];
      if fails(NoColorOpts) {
        status := 1;
        return;
      }
    }
    AttemptedAfter(attempted, [], fails);
    assert attempted + [] == attempted;
  }

  // ----- Facts about the mask -----

  /** A variant is written exactly when its bit is set, never twice, and in the order simplified,
      standard, without color options. */
  lemma RequestedExactly(which: int, t: PpdType)
    ensures t in Requested(which) <==> Asked(which, t)
    ensures forall i, j :: 0 <= i < j < |Requested(which)| ==> Flag(Requested(which)[i]) < Flag(Requested(which)[j])
  {
  }

  /** Only the three low bits of the mask matter. */
  lemma HighBitsIgnored(which: int, k: int)
    ensures Requested(which + 8 * k) == Requested(which)
  {
    LowBits(which, 8 * k, 4 * k, 2 * k);
  }

  /** Adding `8 * k` (or 4, to a mask whose bit 4 is clear) leaves the two lowest bits alone. */
  lemma LowBits(w: int, d: int, h: int, q: int)
    requires d == 2 * h && h == 2 * q
    ensures (w + d) % 2 == w % 2
    ensures (w + d) / 2 == w / 2 + h && ((w + d) / 2) % 2 == (w / 2) % 2
    ensures (w + d) / 4 == w / 4 + q
  {
  }

  /** What the options make of the mask: none asks for the standard PPD only, `-s` for the
      simplified one only, `-a` for the simplified and the standard ones. */
  lemma OptionsSelect(which: int)
    ensures Requested(DefaultMask) == [Standard]
    ensures Requested(ApplyOption(which, 's')) == [Simplified]
    ensures Requested(ApplyOption(which, 'a')) == [Simplified, Standard]
  {
  }

  /** `-C` adds the variant without color options and keeps the others. */
  lemma NoColorAdded(which: int, t: PpdType)
    ensures t in Requested(ApplyOption(which, 'C')) <==> t in Requested(which) || t == NoColorOpts
  {
    var w := ApplyOption(which, 'C');
    if !Asked(which, NoColorOpts) {
      LowBits(which, 4, 2, 1);
    }
    assert Asked(w, Simplified) == Asked(which, Simplified);
    assert Asked(w, Standard) == Asked(which, Standard);
    assert Asked(w, NoColorOpts);
  }

  /** The variants attempted are a prefix of the ones requested; every one of them but the last was
      written; the last failed if any requested one fails, and otherwise all were written. */
  lemma {:induction false} AttemptedPrefix(rs: seq<PpdType>, fails: PpdType -> bool)
    ensures Attempted(rs, fails) <= rs
    ensures forall i :: 0 <= i < |Attempted(rs, fails)| - 1 ==> !fails(Attempted(rs, fails)[i])
    ensures (exists t :: t in rs && fails(t)) ==> |Attempted(rs, fails)| > 0 && fails(Attempted(rs, fails)[|Attempted(rs, fails)| - 1])
    ensures (forall t :: t in rs ==> !fails(t)) ==> Attempted(rs, fails) == rs
  {
    if |rs| > 0 && !fails(rs[0]) {
      AttemptedPrefix(rs[1..], fails);
      var a := Attempted(rs[1..], fails);
      assert Attempted(rs, fails) == [rs[0]] + a;
      assert rs == [rs[0]] + rs[1..];
      forall t | t in rs && fails(t)
        ensures t in rs[1..]
      {
      }
    }
  }

  /** Variants that were all written do not stop the ones after them. */
  lemma {:induction false} AttemptedAfter(done: seq<PpdType>, rest: seq<PpdType>, fails: PpdType -> bool)
    requires forall i :: 0 <= i < |done| ==> !fails(done[i])
    ensures Attempted(done + rest, fails) == done + Attempted(rest, fails)
  {
    if |done| > 0 {
      AttemptedAfter(done[1..], rest, fails);
      assert (done + rest)[0] == done[0] && (done + rest)[1..] == done[1..] + rest;
      assert !fails(done[0]);
      assert Attempted(done + rest, fails) == [done[0]] + Attempted(done[1..] + rest, fails);
      assert done == [done[0]] + done[1..];
    } else {
      assert done + rest == rest;
    }
  }
}
