/**
  The parts of Python's `str` that the bot relies on, stated over `seq<char>`:
  `isspace`/`strip`, `startswith`, `split(sep, maxsplit)` with an explicit
  one-character separator, and `str(int)`.
 */
module PyStr {

  // ---------------------------------------------------------------------------
  // Whitespace and strip()
  // ---------------------------------------------------------------------------

  /** `c.isspace()`: the 29 code points Python treats as whitespace. */
  predicate IsSpace(c: char) {
    var n := c as int;
    || 0x09 <= n <= 0x0D
    || 0x1C <= n <= 0x20
    || n == 0x85
    || n == 0xA0
    || n == 0x1680
    || 0x2000 <= n <= 0x200A
    || n == 0x2028
    || n == 0x2029
    || n == 0x202F
    || n == 0x205F
    || n == 0x3000
  }

  /** Every character of `t` is whitespace. */
  predicate AllSpace(t: string) {
    forall k :: 0 <= k < |t| ==> IsSpace(t[k])
  }

  /** `s.lstrip()`. */
  function LStrip(s: string): string
    decreases |s|
  {
    if |s| > 0 && IsSpace(s[0]) then LStrip(s[1..]) else s
  }

  /** `s.rstrip()`. */
  function RStrip(s: string): string
    decreases |s|
  {
    if |s| > 0 && IsSpace(s[|s| - 1]) then RStrip(s[..|s| - 1]) else s
  }

  /** `s.strip()`. */
  function Strip(s: string): string
  {
    RStrip(LStrip(s))
  }

  /** lstrip() drops exactly the longest whitespace prefix. */
  lemma {:induction false} LStripDropsLeadingSpace(s: string)
    ensures var r := LStrip(s);
      && |r| <= |s| && r == s[|s| - |r|..]
      && AllSpace(s[..|s| - |r|])
      && (r == [] || !IsSpace(r[0]))
    decreases |s|
  {
    if |s| > 0 && IsSpace(s[0]) {
      LStripDropsLeadingSpace(s[1..]);
      var r := LStrip(s[1..]);
      assert s[..|s| - |r|] == [s[0]] + s[1..][..|s| - 1 - |r|];
    }
  }

  /** rstrip() drops exactly the longest whitespace suffix. */
  lemma {:induction false} RStripDropsTrailingSpace(s: string)
    ensures var r := RStrip(s);
      && |r| <= |s| && r == s[..|r|]
      && AllSpace(s[|r|..])
      && (r == [] || !IsSpace(r[|r| - 1]))
    decreases |s|
  {
    if |s| > 0 && IsSpace(s[|s| - 1]) {
      RStripDropsTrailingSpace(s[..|s| - 1]);
      var r := RStrip(s[..|s| - 1]);
      assert s[|r|..] == s[..|s| - 1][|r|..] + [s[|s| - 1]];
    }
  }

  /**
    What strip() keeps is one contiguous slice of the input, neither end of
    which is whitespace, and what it removes on either side is whitespace.
   */
  lemma {:induction false} StripSlice(s: string) returns (i: nat)
    ensures i + |Strip(s)| <= |s| && Strip(s) == s[i..i + |Strip(s)|]
    ensures AllSpace(s[..i]) && AllSpace(s[i + |Strip(s)|..])
    ensures Strip(s) == [] || (!IsSpace(Strip(s)[0]) && !IsSpace(Strip(s)[|Strip(s)| - 1]))
  {
    var l := LStrip(s);
    LStripDropsLeadingSpace(s);
    i := |s| - |l|;
    var r := RStrip(l);
    RStripDropsTrailingSpace(l);
    assert Strip(s) == r;
    if r != [] {
      assert r[0] == l[0];
    }
    assert s[i..i + |r|] == r by {
      assert l == s[i..] && r == l[..|r|];
    }
    assert s[i + |r|..] == l[|r|..] by {
      assert l == s[i..];
    }
  }

  /** An input that is all whitespace strips to the empty string, and only such an input does. */
  lemma {:induction false} StripEmptyIff(s: string)
    ensures Strip(s) == [] <==> AllSpace(s)
  {
    var i := StripSlice(s);
    if Strip(s) != [] {
      assert !IsSpace(s[i]);
    } else {
      assert s == s[..i] + s[i..];
    }
  }

  /** Stripping twice is stripping once. */
  lemma {:induction false} StripIdempotent(s: string)
    ensures Strip(Strip(s)) == Strip(s)
  {
    var i := StripSlice(s);
    var r := Strip(s);
    if r != [] {
      assert LStrip(r) == r;
      assert RStrip(r) == r;
    }
  }

  // ---------------------------------------------------------------------------
  // startswith, find, count
  // ---------------------------------------------------------------------------

  /** `s.startswith(p)`. */
  predicate StartsWith(s: string, p: string) {
    |p| <= |s| && s[..|p|] == p
  }

  /** `s.find(c)`, except that an absent character gives `|s|` rather than -1. */
  function Find(s: string, c: char): (i: nat)
    ensures i <= |s|
  {
    if s == [] then 0
    else if s[0] == c then 0
    else 1 + Find(s[1..], c)
  }

  /** Find gives the first occurrence, and `|s|` exactly when there is none. */
  lemma {:induction false} FindFirst(s: string, c: char)
    ensures Find(s, c) < |s| ==> s[Find(s, c)] == c
    ensures c !in s[..Find(s, c)]
    ensures Find(s, c) == |s| <==> c !in s
  {
    if s != [] && s[0] != c {
      FindFirst(s[1..], c);
      var j := Find(s[1..], c);
      assert s[..j + 1] == [s[0]] + s[1..][..j];
      assert s == [s[0]] + s[1..];
    }
  }

  /** The first separator in `a + [sep] + b` sits right after `a` when `a` has none. */
  lemma {:induction false} FindAfter(a: string, sep: char, b: string)
    requires sep !in a
    ensures Find(a + [sep] + b, sep) == |a|
  {
    if a != [] {
      assert (a + [sep] + b)[1..] == a[1..] + [sep] + b;
      FindAfter(a[1..], sep, b);
    }
  }

  /** `s.count(c)`. */
  function Count(s: string, c: char): (n: nat)
    ensures n <= |s|
  {
    if s == [] then 0
    else (if s[0] == c then 1 else 0) + Count(s[1..], c)
  }

  /** A character is absent exactly when it occurs zero times. */
  lemma {:induction false} CountZeroIff(s: string, c: char)
    ensures Count(s, c) == 0 <==> c !in s
  {
    if s != [] {
      CountZeroIff(s[1..], c);
      assert s == [s[0]] + s[1..];
    }
  }

  lemma {:induction false} CountConcat(a: string, b: string, c: char)
    ensures Count(a + b, c) == Count(a, c) + Count(b, c)
  {
    if a != [] {
      assert (a + b)[1..] == a[1..] + b;
      CountConcat(a[1..], b, c);
    } else {
      assert a + b == b;
    }
  }

  // ---------------------------------------------------------------------------
  // split(sep, maxsplit) and its inverse, sep.join(parts)
  // ---------------------------------------------------------------------------

  function Min(a: nat, b: nat): nat { if a <= b then a else b }

  /**
    `s.split(sep, maxsplit)` for a one-character `sep`: at most `maxsplit`
    splits, each at the first remaining occurrence of `sep`, so the last
    piece keeps every further occurrence.
   */
  function Split(s: string, sep: char, maxsplit: nat): (parts: seq<string>)
    ensures 1 <= |parts| <= maxsplit + 1
    decreases |s|
  {
    var i := Find(s, sep);
    if maxsplit == 0 || i == |s| then [s]
    else [s[..i]] + Split(s[i + 1..], sep, maxsplit - 1)
  }

  /** Only the last piece of a split may contain the separator, and it does only when all maxsplit splits were made. */
  lemma {:induction false} SplitPieces(s: string, sep: char, maxsplit: nat)
    ensures var parts := Split(s, sep, maxsplit);
      && (forall k :: 0 <= k < |parts| - 1 ==> sep !in parts[k])
      && (|parts| < maxsplit + 1 ==> sep !in parts[|parts| - 1])
    decreases |s|
  {
    var i := Find(s, sep);
    FindFirst(s, sep);
    if maxsplit > 0 && i < |s| {
      var rest := Split(s[i + 1..], sep, maxsplit - 1);
      SplitPieces(s[i + 1..], sep, maxsplit - 1);
      var parts := Split(s, sep, maxsplit);
      assert parts == [s[..i]] + rest;
      forall k | 1 <= k < |parts| ensures parts[k] == rest[k - 1] { }
    }
  }

  /** `sep.join(parts)`, the reference inverse of Split. */
  function Join(parts: seq<string>, sep: char): string
  {
    if |parts| == 0 then ""
    else if |parts| == 1 then parts[0]
    else parts[0] + [sep] + Join(parts[1..], sep)
  }

  lemma {:induction false} JoinThree(a: string, b: string, c: string, sep: char)
    ensures Join([a, b, c], sep) == a + [sep] + b + [sep] + c
  {
    assert [a, b, c][1..] == [b, c];
    assert [b, c][1..] == [c];
    assert Join([b, c], sep) == b + [sep] + c;
    assert a + [sep] + (b + [sep] + c) == a + [sep] + b + [sep] + c;
  }

  /** Joining the pieces of a split gives back the string that was split. */
  lemma {:induction false} JoinSplit(s: string, sep: char, maxsplit: nat)
    ensures Join(Split(s, sep, maxsplit), sep) == s
    decreases |s|
  {
    var i := Find(s, sep);
    if maxsplit > 0 && i < |s| {
      var head, tail := s[..i], s[i + 1..];
      var rest := Split(tail, sep, maxsplit - 1);
      assert Join(Split(s, sep, maxsplit), sep) == head + [sep] + Join(rest, sep) by {
        var parts := Split(s, sep, maxsplit);
        assert parts == [head] + rest;
        assert parts[0] == head && parts[1..] == rest;
      }
      JoinSplit(tail, sep, maxsplit - 1);
      assert s == head + [sep] + tail by {
        FindFirst(s, sep);
      }
    }
  }

  /**
    Splitting a join of n pieces with maxsplit n - 1 gives the pieces back,
    provided no piece but the last contains the separator.
   */
  lemma {:induction false} SplitJoin(parts: seq<string>, sep: char)
    requires |parts| >= 1
    requires forall k :: 0 <= k < |parts| - 1 ==> sep !in parts[k]
    ensures Split(Join(parts, sep), sep, |parts| - 1) == parts
    decreases |parts|
  {
    if |parts| > 1 {
      var head, tail := parts[0], parts[1..];
      var rest := Join(tail, sep);
      var s := Join(parts, sep);
      assert s == head + [sep] + rest;
      FindAfter(head, sep, rest);
      assert Split(s, sep, |parts| - 1) == [head] + Split(rest, sep, |tail| - 1) by {
        assert s[..|head|] == head;
        assert s[|head| + 1..] == rest;
      }
      SplitJoin(tail, sep);
      assert parts == [head] + tail;
    }
  }

  /** Everything after the first separator holds all but one of the occurrences. */
  lemma {:induction false} CountAfterFirst(s: string, sep: char)
    requires Find(s, sep) < |s|
    ensures Count(s, sep) == 1 + Count(s[Find(s, sep) + 1..], sep)
  {
    var i := Find(s, sep);
    FindFirst(s, sep);
    var head, tail := s[..i], s[i + 1..];
    CountZeroIff(head, sep);
    assert s == head + ([sep] + tail);
    assert [sep][1..] == [];
    CountConcat(head, [sep] + tail, sep);
    CountConcat([sep], tail, sep);
  }

  /** A split makes one piece more than the number of splits it could do: min(maxsplit, count). */
  lemma {:induction false} SplitLength(s: string, sep: char, maxsplit: nat)
    ensures |Split(s, sep, maxsplit)| == 1 + Min(maxsplit, Count(s, sep))
    decreases |s|
  {
    var i := Find(s, sep);
    if maxsplit == 0 || i == |s| {
      FindFirst(s, sep);
      CountZeroIff(s, sep);
    } else {
      var tail := s[i + 1..];
      assert |Split(s, sep, maxsplit)| == 1 + |Split(tail, sep, maxsplit - 1)|;
      assert Count(s, sep) == 1 + Count(tail, sep) by {
        CountAfterFirst(s, sep);
      }
      SplitLength(tail, sep, maxsplit - 1);
    }
  }

  // ---------------------------------------------------------------------------
  // str(int)
  // ---------------------------------------------------------------------------

  predicate IsDigit(c: char) { '0' <= c <= '9' }

  function DigitChar(d: nat): (c: char)
    requires d < 10
    ensures IsDigit(c)
  {
    ('0' as int + d) as char
  }

  /** Decimal digits of a natural number, most significant first, with no leading zero. */
  function NatToDecimal(n: nat): (r: string)
    ensures |r| >= 1 && forall k :: 0 <= k < |r| ==> IsDigit(r[k])
    ensures (r == "0") == (n == 0)
    ensures r[0] != '0' || n == 0
    decreases n
  {
    if n < 10 then [DigitChar(n)]
    else NatToDecimal(n / 10) + [DigitChar(n % 10)]
  }

  /** `str(i)` for a Python int: a minus sign before the digits of a negative number. */
  function IntToDecimal(i: int): (r: string)
    ensures |r| >= 1
    ensures (r[0] == '-') == (i < 0)
  {
    if i < 0 then "-" + NatToDecimal(-i) else NatToDecimal(i)
  }

  /** The value of a string of decimal digits; the reference inverse of NatToDecimal. */
  function DecimalValue(s: string): nat
    requires forall k :: 0 <= k < |s| ==> IsDigit(s[k])
  {
    if s == [] then 0
    else
      var last := s[|s| - 1];
      assert IsDigit(last);
      DecimalValue(s[..|s| - 1]) * 10 + (last as int - '0' as int)
  }

  lemma {:induction false} DecimalValueOfNat(n: nat)
    ensures DecimalValue(NatToDecimal(n)) == n
    decreases n
  {
    if n >= 10 {
      var r := NatToDecimal(n);
      assert r[..|r| - 1] == NatToDecimal(n / 10);
      DecimalValueOfNat(n / 10);
    }
  }

  lemma {:induction false} NatToDecimalInjective(a: nat, b: nat)
    ensures NatToDecimal(a) == NatToDecimal(b) ==> a == b
  {
    DecimalValueOfNat(a);
    DecimalValueOfNat(b);
  }

  /** Distinct integers have distinct decimal renderings. */
  lemma {:induction false} IntToDecimalInjective(a: int, b: int)
    ensures IntToDecimal(a) == IntToDecimal(b) ==> a == b
  {
    if a < 0 && b < 0 {
      assert IntToDecimal(a)[1..] == NatToDecimal(-a);
      assert IntToDecimal(b)[1..] == NatToDecimal(-b);
      NatToDecimalInjective(-a, -b);
    } else if 0 <= a && 0 <= b {
      NatToDecimalInjective(a, b);
    }
  }

  // ---------------------------------------------------------------------------
  // Substrings
  // ---------------------------------------------------------------------------

  /** `t` occurs in `s` starting at position `i`. */
  predicate OccursAt(s: string, t: string, i: nat) {
    i + |t| <= |s| && s[i..i + |t|] == t
  }

  /** `t in s` for strings. */
  predicate Contains(s: string, t: string) {
    exists i: nat | i <= |s| :: OccursAt(s, t, i)
  }

}
