/** Decimal rendering as printf produces it, and the C string helpers of the PPD writer.
    Strings are byte strings: one `char` per byte of the C string. */
module Text {

  datatype Option<T> = None | Some(value: T)

  /** The decimal digit character for `d`. */
  function Digit(d: nat): char
    requires d < 10
  {
    (48 + d) as char
  }

  predicate IsDigit(c: char) {
    '0' <= c <= '9'
  }

  /** printf's "%d" for a non-negative value. */
  function NatToString(n: nat): string
    decreases n
  {
    if n < 10 then [Digit(n)] else NatToString(n / 10) + [Digit(n % 10)]
  }

  /** printf's "%d". */
  function IntToString(i: int): string
  {
    if i < 0 then "-" + NatToString(-i) else NatToString(i)
  }

  lemma {:induction false} NatToStringDigits(n: nat)
    ensures |NatToString(n)| > 0
    ensures forall k :: 0 <= k < |NatToString(n)| ==> IsDigit(NatToString(n)[k])
    ensures n >= 10 ==> |NatToString(n)| >= 2
    decreases n
  {
    if n >= 10 {
      NatToStringDigits(n / 10);
    }
  }

  /** Distinct values print differently. */
  lemma {:induction false} NatToStringInjective(a: nat, b: nat)
    requires NatToString(a) == NatToString(b)
    ensures a == b
    decreases a
  {
    if a >= 10 && b >= 10 {
      var sa, sb := NatToString(a), NatToString(b);
      assert sa[..|sa| - 1] == NatToString(a / 10);
      assert sb[..|sb| - 1] == NatToString(b / 10);
      assert sa[|sa| - 1] == Digit(a % 10) && sb[|sb| - 1] == Digit(b % 10);
      NatToStringInjective(a / 10, b / 10);
    } else if a >= 10 {
      NatToStringDigits(a);
    } else if b >= 10 {
      NatToStringDigits(b);
    }
  }

  /** "%d" output consists of digits after an optional leading minus sign. */
  lemma IntToStringChars(i: int)
    ensures |IntToString(i)| > 0
    ensures forall k :: 0 <= k < |IntToString(i)| ==> IsDigit(IntToString(i)[k]) || IntToString(i)[k] == '-'
    ensures IsDigit(IntToString(i)[0]) <==> i >= 0
  {
    if i < 0 {
      NatToStringDigits(-i);
    } else {
      NatToStringDigits(i);
    }
  }

  lemma IntToStringInjective(a: int, b: int)
    requires IntToString(a) == IntToString(b)
    ensures a == b
  {
    IntToStringChars(a);
    IntToStringChars(b);
    if a < 0 && b < 0 {
      assert IntToString(a)[1..] == NatToString(-a);
      assert IntToString(b)[1..] == NatToString(-b);
      NatToStringInjective(-a, -b);
    } else if a >= 0 && b >= 0 {
      NatToStringInjective(a, b);
    }
  }

  /** Three digits with leading zeros, for the fraction of "%.3f". */
  function Pad3(n: nat): string
    requires n < 1000
  {
    [Digit(n / 100), Digit(n / 10 % 10), Digit(n % 10)]
  }

  /** printf's "%.3f" of the value k / 1000, for a value given in thousandths. */
  function Thousandths(k: int): string
  {
    var a := if k < 0 then -k else k;
    (if k < 0 then "-" else "") + NatToString(a / 1000) + "." + Pad3(a % 1000)
  }

  /** `bytelen`: counts the bytes before the terminating NUL of a C string. */
  method ByteLen(buffer: seq<char>) returns (answer: nat)
    requires '\0' in buffer
    ensures answer < |buffer| && buffer[answer] == '\0'
    ensures forall k :: 0 <= k < answer ==> buffer[k] != '\0'
  {
    answer := 0;
    while buffer[answer] != '\0'
      invariant answer < |buffer|
      invariant '\0' in buffer[answer..]
      invariant forall k :: 0 <= k < answer ==> buffer[k] != '\0'
      decreases |buffer| - answer
    {
      assert buffer[answer..] == [buffer[answer]] + buffer[answer + 1..];
      answer := answer + 1;
    }
  }

  /** What `snprintf(buf, size, "%s", s)` stores: at most size - 1 bytes. */
  function Truncate(s: string, size: nat): (r: string)
    requires size > 0
  {
    if |s| < size then s else s[..size - 1]
  }

  /** Index of the first occurrence of `c`. */
  function IndexOf(s: string, c: char): (k: nat)
    requires c in s
    ensures k < |s| && s[k] == c && c !in s[..k]
  {
    if s[0] == c then 0 else assert s == [s[0]] + s[1..]; 1 + IndexOf(s[1..], c)
  }

  /** `strrchr`: index of the last occurrence of `c`, if any. */
  function LastIndexOf(s: string, c: char): (r: Option<nat>)
    ensures r.None? <==> c !in s
    ensures r.Some? ==> r.value < |s| && s[r.value] == c && c !in s[r.value + 1..]
  {
    if |s| == 0 then None
    else if s[|s| - 1] == c then Some(|s| - 1)
    else assert s == s[..|s| - 1] + [s[|s| - 1]]; LastIndexOf(s[..|s| - 1], c)
  }

  /** The pieces between separators, as the C loop over `strchr` cuts them:
      one more piece than there are separators, empty pieces included. */
  function SplitAt(s: string, sep: char): seq<string>
    decreases |s|
  {
    if sep !in s then [s]
    else var k := IndexOf(s, sep); [s[..k]] + SplitAt(s[k + 1..], sep)
  }

  /** The pieces glued back with the separator. */
  function Join(parts: seq<string>, sep: char): string
  {
    if |parts| == 0 then "" else if |parts| == 1 then parts[0] else parts[0] + [sep] + Join(parts[1..], sep)
  }

  function Count(s: string, c: char): nat
  {
    if |s| == 0 then 0 else (if s[0] == c then 1 else 0) + Count(s[1..], c)
  }

  /** Concatenation is associative. */
  lemma AppendAssoc<T>(a: seq<T>, b: seq<T>, c: seq<T>)
    ensures (a + b) + c == a + (b + c)
  {
  }

  /** What is in either part is in the concatenation, and nothing else is. */
  lemma InAppend<T>(a: seq<T>, b: seq<T>, x: T)
    ensures x in a ==> x in a + b
    ensures x in b ==> x in a + b
    ensures x in a + b ==> x in a || x in b
  {
  }

  lemma {:induction false} CountSplit(a: string, b: string, c: char)
    ensures Count(a + b, c) == Count(a, c) + Count(b, c)
  {
    if |a| > 0 {
      assert (a + b)[1..] == a[1..] + b;
      CountSplit(a[1..], b, c);
    } else {
      assert a + b == b;
    }
  }

  lemma {:induction false} CountAbsent(s: string, c: char)
    requires c !in s
    ensures Count(s, c) == 0
  {
    if |s| > 0 {
      CountAbsent(s[1..], c);
    }
  }

  lemma SplitNonEmpty(s: string, sep: char)
    ensures |SplitAt(s, sep)| >= 1
  {
  }

  /** Joining the pieces with the separator gives the string back. */
  lemma {:induction false} SplitJoin(s: string, sep: char)
    ensures Join(SplitAt(s, sep), sep) == s
    decreases |s|
  {
    if sep in s {
      var k := IndexOf(s, sep);
      var rest := SplitAt(s[k + 1..], sep);
      assert SplitAt(s, sep) == [s[..k]] + rest;
      SplitJoin(s[k + 1..], sep);
      SplitNonEmpty(s[k + 1..], sep);
      JoinCons(s[..k], rest, sep);
      assert s == s[..k] + [sep] + s[k + 1..];
    }
  }

  lemma JoinCons(p: string, rest: seq<string>, sep: char)
    requires |rest| >= 1
    ensures Join([p] + rest, sep) == p + [sep] + Join(rest, sep)
  {
    assert ([p] + rest)[1..] == rest;
  }

  /** No piece holds the separator. */
  lemma {:induction false} SplitPiecesFree(s: string, sep: char, i: nat)
    requires i < |SplitAt(s, sep)|
    ensures sep !in SplitAt(s, sep)[i]
    decreases |s|
  {
    if sep in s && i > 0 {
      var k := IndexOf(s, sep);
      SplitPiecesFree(s[k + 1..], sep, i - 1);
    }
  }

  /** There is one piece more than there are separators. */
  lemma {:induction false} SplitCount(s: string, sep: char)
    ensures |SplitAt(s, sep)| == Count(s, sep) + 1
    decreases |s|
  {
    if sep !in s {
      CountAbsent(s, sep);
    } else {
      var k := IndexOf(s, sep);
      SplitCount(s[k + 1..], sep);
      assert s == s[..k] + ([sep] + s[k + 1..]);
      CountSplit(s[..k], [sep] + s[k + 1..], sep);
      CountAbsent(s[..k], sep);
      assert ([sep] + s[k + 1..])[1..] == s[k + 1..];
    }
  }

  /** A separator found at `j` with none before it starts the rest of the split. */
  lemma SplitAtFirst(s: string, sep: char, j: nat)
    requires j < |s| && s[j] == sep && sep !in s[..j]
    ensures SplitAt(s, sep) == [s[..j]] + SplitAt(s[j + 1..], sep)
  {
    assert sep in s;
    IndexOfFirst(s, sep, j);
  }

  lemma {:induction false} IndexOfFirst(s: string, c: char, j: nat)
    requires j < |s| && s[j] == c && c !in s[..j]
    ensures IndexOf(s, c) == j
  {
    if j > 0 {
      assert s[0] in s[..j];
      assert s[1..][..j - 1] == s[1..j];
      assert forall x :: x in s[1..j] ==> x in s[..j];
      IndexOfFirst(s[1..], c, j - 1);
    }
  }

  /** One step of the `strchr` loop: the next separator at `i` closes the piece begun at `start`. */
  lemma SplitStep(s: string, sep: char, start: nat, i: nat)
    requires start <= i < |s| && s[i] == sep && forall m :: start <= m < i ==> s[m] != sep
    ensures SplitAt(s[start..], sep) == [s[start..i]] + SplitAt(s[i + 1..], sep)
  {
    var t := s[start..];
    var j := i - start;
    assert t[..j] == s[start..i];
    assert t[j + 1..] == s[i + 1..];
    assert t[j] == sep;
    assert sep !in t[..j];
    SplitAtFirst(t, sep, j);
  }

  /** The last piece, after the last separator. */
  lemma SplitLast(s: string, sep: char, start: nat)
    requires start <= |s| && forall m :: start <= m < |s| ==> s[m] != sep
    ensures SplitAt(s[start..], sep) == [s[start..]]
  {
    assert sep !in s[start..];
  }

  /** The `strchr` loop of `getlangs` (genppd.c:990-1001), which cuts `s` at each separator. */
  method Split(s: string, sep: char) returns (pieces: seq<string>)
    ensures pieces == SplitAt(s, sep)
  {
    pieces := [];
    var start, i := 0, 0;
    while i < |s|
      invariant start <= i <= |s|
      invariant forall m :: start <= m < i ==> s[m] != sep
      invariant pieces + SplitAt(s[start..], sep) == SplitAt(s, sep)
    {
      if s[i] == sep {
        SplitStep(s, sep, start, i);
        ghost var rest := SplitAt(s[i + 1..], sep);
        AppendAssoc(pieces, [s[start..i]], rest);
        pieces := pieces + [s[start..i]];
        start := i + 1;
      }
      i := i + 1;
    }
    SplitLast(s, sep, start);
    pieces := pieces + [s[start..]];
  }

  /** `getlangs`: the configured language list, a space-separated string, cut into its
      entries; the result is memoised in the object, as the C function keeps a static. */
  class LanguageList {
    const allLinguas: string
    var langs: Option<seq<string>>

    constructor (allLinguas: string)
      ensures this.allLinguas == allLinguas && langs == None
    {
      this.allLinguas := allLinguas;
      langs := None;
    }

    ghost predicate Valid()
      reads this
    {
      langs.Some? ==> langs.value == SplitAt(allLinguas, ' ')
    }

    method GetLangs() returns (r: seq<string>)
      requires Valid()
      modifies this
      ensures Valid()
      ensures r == SplitAt(allLinguas, ' ') && langs == Some(r)
    {
      if langs.None? {
        var pieces := Split(allLinguas, ' ');
        langs := Some(pieces);
      }
      r := langs.value;
    }
  }
}
