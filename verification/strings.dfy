/** The handful of Python `str` operations the registry, the example tools and
    the agent rely on: `in` (substring test), `split(sep)`, `strip()`, `upper()`
    and the decimal rendering and reading of integers (`str(n)` and the digit
    part of `int(s)`).  Strings are sequences of Unicode scalar values, as
    Python's `str` is a sequence of code points.
 */
module Strings {

  /** Python's `str.isspace()`: the characters `str.strip()` removes. */
  predicate IsSpace(c: char) {
    || c == ' ' || c == '\t' || c == '\n' || c == '\r' || c == '\U{000B}' || c == '\U{000C}'
    || ('\U{001C}' <= c <= '\U{001F}') || c == '\U{0085}' || c == '\U{00A0}' || c == '\U{1680}'
    || ('\U{2000}' <= c <= '\U{200A}') || c == '\U{2028}' || c == '\U{2029}' || c == '\U{202F}'
    || c == '\U{205F}' || c == '\U{3000}'
  }

  // ---------------------------------------------------------------------------
  // Substring test: Python's `sub in s`
  // ---------------------------------------------------------------------------

  /** `sub` occurs in `s` starting at index `i`. */
  predicate OccursAt(s: string, sub: string, i: int) {
    0 <= i && i + |sub| <= |s| && s[i..i + |sub|] == sub
  }

  /** Python's `sub in s`, searched left to right. */
  function Contains(s: string, sub: string): bool
    decreases |s|
  {
    if |sub| > |s| then false
    else if sub <= s then true
    else Contains(s[1..], sub)
  }

  /** `Contains` holds exactly when `sub` occurs somewhere in `s`. */
  lemma {:induction false} ContainsSpec(s: string, sub: string)
    ensures Contains(s, sub) <==> exists i :: OccursAt(s, sub, i)
    decreases |s|
  {
    if |sub| > |s| {
    } else if sub <= s {
      assert OccursAt(s, sub, 0);
    } else {
      var t := s[1..];
      ContainsSpec(t, sub);
      if Contains(t, sub) {
        var i :| OccursAt(t, sub, i);
        assert s[i + 1..i + 1 + |sub|] == t[i..i + |sub|];
        assert OccursAt(s, sub, i + 1);
      } else {
        forall i | OccursAt(s, sub, i)
          ensures OccursAt(t, sub, i - 1)
        {
          assert t[i - 1..i - 1 + |sub|] == s[i..i + |sub|];
        }
      }
    }
  }

  /** A string contains each of its prefixes. */
  lemma PrefixContained(s: string, p: string)
    requires p <= s
    ensures Contains(s, p)
  {
    assert OccursAt(s, p, 0);
    ContainsSpec(s, p);
  }

  /** Whatever contains a non-empty `sub` contains `sub`'s characters; in particular
      a string lacking the first character of `sub` does not contain `sub`. */
  lemma ContainsHasChars(s: string, sub: string, k: nat)
    requires Contains(s, sub) && k < |sub|
    ensures sub[k] in s
  {
    ContainsSpec(s, sub);
    var i :| OccursAt(s, sub, i);
    assert s[i + k] == s[i..i + |sub|][k];
  }

  // ---------------------------------------------------------------------------
  // Python's `s.split(sep)` for a one-character separator, and its inverse `sep.join`
  // ---------------------------------------------------------------------------

  /** The pieces of `s` between occurrences of `sep`, left to right, keeping empty
      pieces (Python's `str.split` with an explicit separator). */
  function Split(s: string, sep: char): (parts: seq<string>)
    ensures |parts| == 1 + multiset(s)[sep]
    ensures forall k :: 0 <= k < |parts| ==> sep !in parts[k]
  {
    if s == [] then
      [[]]
    else
      var rest := Split(s[1..], sep);
      assert s == [s[0]] + s[1..];
      if s[0] == sep then
        [[]] + rest
      else
        [[s[0]] + rest[0]] + rest[1..]
  }

  /** Python's `sep.join(parts)`. */
  function Join(parts: seq<string>, sep: char): string
  {
    if |parts| == 0 then []
    else if |parts| == 1 then parts[0]
    else parts[0] + [sep] + Join(parts[1..], sep)
  }

  /** Joining the pieces of a split restores the original string. */
  lemma {:induction false} JoinSplit(s: string, sep: char)
    ensures Join(Split(s, sep), sep) == s
    decreases |s|
  {
    if s != [] {
      var tail := s[1..];
      var rest := Split(tail, sep);
      JoinSplit(tail, sep);
      SplitCons(s, sep);
      if s[0] == sep {
        JoinAfterEmpty(rest, sep);
      } else {
        JoinExtendFirst(s[0], rest, sep);
      }
      assert s == [s[0]] + tail;
    }
  }

  lemma SplitCons(s: string, sep: char)
    requires s != []
    ensures var rest := Split(s[1..], sep);
            Split(s, sep) == if s[0] == sep then [[]] + rest else [[s[0]] + rest[0]] + rest[1..]
  {
  }

  lemma JoinAfterEmpty(parts: seq<string>, sep: char)
    requires |parts| >= 1
    ensures Join([[]] + parts, sep) == [sep] + Join(parts, sep)
  {
    assert ([[]] + parts)[1..] == parts;
  }

  lemma JoinExtendFirst(c: char, parts: seq<string>, sep: char)
    requires |parts| >= 1
    ensures Join([[c] + parts[0]] + parts[1..], sep) == [c] + Join(parts, sep)
  {
    var ps := [[c] + parts[0]] + parts[1..];
    if |parts| > 1 {
      assert ps[1..] == parts[1..];
    }
  }

  /** Splitting a join of separator-free pieces gives the pieces back. */
  lemma {:induction false} SplitJoin(parts: seq<string>, sep: char)
    requires |parts| >= 1
    requires forall k :: 0 <= k < |parts| ==> sep !in parts[k]
    ensures Split(Join(parts, sep), sep) == parts
  {
    if |parts| == 1 {
      SplitFree(parts[0], sep);
    } else {
      SplitJoin(parts[1..], sep);
      SplitAfterFree(parts[0], Join(parts[1..], sep), sep);
      assert parts == [parts[0]] + parts[1..];
    }
  }

  /** A separator-free string followed by the separator is split off as one piece. */
  lemma {:induction false} SplitAfterFree(a: string, b: string, sep: char)
    requires sep !in a
    ensures Split(a + [sep] + b, sep) == [a] + Split(b, sep)
  {
    if a == [] {
      assert ([sep] + b)[1..] == b;
    } else {
      var s := a + [sep] + b;
      assert s[1..] == a[1..] + [sep] + b;
      SplitAfterFree(a[1..], b, sep);
      assert [a[0]] + a[1..] == a;
    }
  }

  /** A separator-free string splits into itself. */
  lemma {:induction false} SplitFree(s: string, sep: char)
    requires sep !in s
    ensures Split(s, sep) == [s]
  {
    if s != [] {
      SplitFree(s[1..], sep);
      assert s == [s[0]] + s[1..];
    }
  }

  // ---------------------------------------------------------------------------
  // Python's `s.strip()`
  // ---------------------------------------------------------------------------

  /** `s` without its leading whitespace. */
  function TrimStart(s: string): string {
    if s != [] && IsSpace(s[0]) then TrimStart(s[1..]) else s
  }

  /** `s` without its trailing whitespace. */
  function TrimEnd(s: string): string {
    if s != [] && IsSpace(s[|s| - 1]) then TrimEnd(s[..|s| - 1]) else s
  }

  /** `TrimStart` removes exactly the leading whitespace: a suffix remains, all
      that was cut is whitespace, and the rest starts with something else. */
  lemma {:induction false} TrimStartSuffix(s: string)
    ensures |TrimStart(s)| <= |s| && TrimStart(s) == s[|s| - |TrimStart(s)|..]
    ensures forall i :: 0 <= i < |s| - |TrimStart(s)| ==> IsSpace(s[i])
    ensures TrimStart(s) == [] || !IsSpace(TrimStart(s)[0])
  {
    if s != [] && IsSpace(s[0]) {
      var t := s[1..];
      TrimStartSuffix(t);
      var r := TrimStart(t);
      assert TrimStart(s) == r;
      assert t[|t| - |r|..] == s[|s| - |r|..];
      forall i | 0 <= i < |s| - |r|
        ensures IsSpace(s[i])
      {
        if i > 0 {
          assert s[i] == t[i - 1];
        }
      }
    }
  }

  /** `TrimEnd` removes exactly the trailing whitespace. */
  lemma {:induction false} TrimEndPrefix(s: string)
    ensures |TrimEnd(s)| <= |s| && TrimEnd(s) == s[..|TrimEnd(s)|]
    ensures forall i :: |TrimEnd(s)| <= i < |s| ==> IsSpace(s[i])
    ensures TrimEnd(s) == [] || !IsSpace(TrimEnd(s)[|TrimEnd(s)| - 1])
  {
    if s != [] && IsSpace(s[|s| - 1]) {
      var t := s[..|s| - 1];
      TrimEndPrefix(t);
      var r := TrimEnd(t);
      assert TrimEnd(s) == r;
      assert t[..|r|] == s[..|r|];
      forall i | |r| <= i < |s|
        ensures IsSpace(s[i])
      {
        if i < |s| - 1 {
          assert s[i] == t[i];
        }
      }
    }
  }

  /** Python's `s.strip()`. */
  function Strip(s: string): string {
    TrimEnd(TrimStart(s))
  }

  /** `s.strip()` is the slice `s[a..b]` that remains once the whitespace before
      `a` and from `b` on is removed, and it neither starts nor ends with
      whitespace. */
  lemma StripSlice(s: string) returns (a: nat, b: nat)
    ensures a <= b <= |s| && Strip(s) == s[a..b]
    ensures forall i :: 0 <= i < a ==> IsSpace(s[i])
    ensures forall i :: b <= i < |s| ==> IsSpace(s[i])
    ensures Strip(s) == [] || (!IsSpace(Strip(s)[0]) && !IsSpace(Strip(s)[|Strip(s)| - 1]))
  {
    var t := TrimStart(s);
    var r := TrimEnd(t);
    TrimStartSuffix(s);
    TrimEndPrefix(t);
    a := |s| - |t|;
    b := a + |r|;
    assert r == s[a..b];
    forall i | b <= i < |s|
      ensures IsSpace(s[i])
    {
      assert s[i] == t[i - a];
    }
    assert r != [] ==> r[0] == t[0];
  }

  /** `strip()` only removes characters: one absent before is absent after. */
  lemma StripWithout(s: string, c: char)
    requires c !in s
    ensures c !in Strip(s)
  {
    var a, b := StripSlice(s);
  }

  /** Stripping a string with no whitespace at either end changes nothing. */
  lemma StripUntrimmed(s: string)
    requires s == [] || (!IsSpace(s[0]) && !IsSpace(s[|s| - 1]))
    ensures Strip(s) == s
  {
  }

  // ---------------------------------------------------------------------------
  // Python's `s.upper()` on the characters whose capital is one ASCII letter
  // ---------------------------------------------------------------------------

  predicate IsLowerAscii(c: char) {
    'a' <= c <= 'z'
  }

  predicate IsUpperAscii(c: char) {
    'A' <= c <= 'Z'
  }

  /** Dotless i, whose capital is the ASCII `'I'`. */
  const DotlessI: char := '\U{0131}'
  /** Long s, whose capital is the ASCII `'S'`. */
  const LongS: char := '\U{017F}'

  /** `c.upper()` where Python's capital is a single ASCII letter: the ASCII
      lower-case letters and the two non-ASCII letters dotless i and long s.  Every
      other character is kept. */
  function UpperChar(c: char): (u: char)
    ensures !IsLowerAscii(u)
    ensures IsLowerAscii(c) ==> u as int == c as int - 32
    ensures c == DotlessI ==> u == 'I'
    ensures c == LongS ==> u == 'S'
    ensures !IsLowerAscii(c) && c != DotlessI && c != LongS ==> u == c
  {
    if IsLowerAscii(c) then (c as int - 32) as char
    else if c == DotlessI then 'I'
    else if c == LongS then 'S'
    else c
  }

  /** An ASCII capital comes only from itself, its lower-case letter, or one of the
      two non-ASCII letters that upper-case to ASCII. */
  lemma UpperCharToAscii(c: char)
    requires IsUpperAscii(UpperChar(c))
    ensures IsUpperAscii(c) || IsLowerAscii(c) || c == DotlessI || c == LongS
  {
  }

  /** `s.upper()` on these characters: each replaced by its capital, every other
      character kept, so the length and all non-letters are preserved. */
  function Upper(s: string): (r: string)
    ensures |r| == |s|
    ensures forall i :: 0 <= i < |s| ==> r[i] == UpperChar(s[i])
  {
    seq(|s|, i requires 0 <= i < |s| => UpperChar(s[i]))
  }

  /** A string that upper-cases to ASCII capitals only is made of ASCII letters,
      dotless i and long s: no other character can reach an all-capital code. */
  lemma UpperToAsciiLetters(s: string)
    requires forall i :: 0 <= i < |s| ==> IsUpperAscii(Upper(s)[i])
    ensures forall i :: 0 <= i < |s| ==> IsUpperAscii(s[i]) || IsLowerAscii(s[i]) || s[i] == DotlessI || s[i] == LongS
  {
    forall i | 0 <= i < |s|
      ensures IsUpperAscii(s[i]) || IsLowerAscii(s[i]) || s[i] == DotlessI || s[i] == LongS
    {
      assert Upper(s)[i] == UpperChar(s[i]);
      UpperCharToAscii(s[i]);
    }
  }

  /** Upper-casing twice is upper-casing once. */
  lemma UpperIdempotent(s: string)
    ensures Upper(Upper(s)) == Upper(s)
  {
    assert forall i :: 0 <= i < |s| ==> Upper(Upper(s))[i] == Upper(s)[i];
  }

  // ---------------------------------------------------------------------------
  // Decimal digits: Python's `str(n)` for an int and the digit part of `int(s)`
  // ---------------------------------------------------------------------------

  predicate IsDigit(c: char) {
    '0' <= c <= '9'
  }

  function DigitChar(d: nat): (c: char)
    requires d < 10
    ensures IsDigit(c)
  {
    ('0' as int + d) as char
  }

  function DigitValue(c: char): (d: nat)
    requires IsDigit(c)
    ensures d < 10 && DigitChar(d) == c
  {
    c as int - '0' as int
  }

  predicate AllDigits(s: string) {
    forall i :: 0 <= i < |s| ==> IsDigit(s[i])
  }

  /** The number a string of decimal digits denotes, most significant digit first. */
  function DigitsValue(ds: string): nat
    requires AllDigits(ds)
  {
    if ds == [] then 0 else DigitsValue(ds[..|ds| - 1]) * 10 + DigitValue(ds[|ds| - 1])
  }

  /** Python's `str(n)` for a natural number: its shortest decimal rendering. */
  function NatToDecimal(n: nat): (s: string)
    ensures |s| >= 1 && AllDigits(s)
    ensures |s| > 1 ==> s[0] != '0'
  {
    if n < 10 then [DigitChar(n)] else NatToDecimal(n / 10) + [DigitChar(n % 10)]
  }

  /** Python's `str(i)` for an integer: a minus sign before negative numbers. */
  function IntToDecimal(i: int): (s: string)
    ensures |s| >= 1
    ensures i >= 0 ==> AllDigits(s)
    ensures i < 0 ==> s[0] == '-' && AllDigits(s[1..])
  {
    if i >= 0 then NatToDecimal(i) else "-" + NatToDecimal(-i)
  }

  /** Reading back a rendered natural number gives the number. */
  lemma {:induction false} DigitsOfNat(n: nat)
    ensures DigitsValue(NatToDecimal(n)) == n
  {
    if n >= 10 {
      DigitsOfNat(n / 10);
      var s := NatToDecimal(n);
      assert s[..|s| - 1] == NatToDecimal(n / 10);
    }
  }
}
