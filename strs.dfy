/**
  The Python 2 string operations the harness relies on: find, split, join,
  splitlines, split on whitespace, strip, replace by nothing, slicing with
  negative indices, and the decimal conversions str(int) and int(str).
 */
module Strs {
  import opened Wrappers

  /** The characters Python 2's str.strip() and str.split() treat as whitespace. */
  predicate IsSpace(c: char) {
    c == ' ' || c == '\t' || c == '\n' || c == '\r' || c == '\U{B}' || c == '\U{C}'
  }

  predicate IsDigit(c: char) {
    '0' <= c <= '9'
  }

  predicate AllDigits(s: string) {
    forall k :: 0 <= k < |s| ==> IsDigit(s[k])
  }

  // ---------------------------------------------------------------- find

  /** `sub` occurs in `s` starting at index `i`. */
  predicate OccursAt(s: string, sub: string, i: int) {
    0 <= i && i + |sub| <= |s| && s[i..i + |sub|] == sub
  }

  function FindFrom(s: string, sub: string, i: nat): (r: int)
    decreases |s| - i
    ensures r == -1 || (i <= r && OccursAt(s, sub, r))
    ensures forall j :: i <= j && (r == -1 || j < r) ==> !OccursAt(s, sub, j)
  {
    if i + |sub| > |s| then -1
    else if s[i..i + |sub|] == sub then i
    else FindFrom(s, sub, i + 1)
  }

  /** Python's s.find(sub): the first index where `sub` occurs, or -1. */
  function Find(s: string, sub: string): (r: int)
    ensures r == -1 <==> forall j :: !OccursAt(s, sub, j)
    ensures r != -1 ==> OccursAt(s, sub, r) && forall j :: 0 <= j < r ==> !OccursAt(s, sub, j)
  {
    FindFrom(s, sub, 0)
  }

  /** Python's `sub in s`. */
  predicate Contains(s: string, sub: string) {
    Find(s, sub) != -1
  }

  /** Python's `s.startswith(p)`. */
  predicate StartsWith(s: string, p: string) {
    |p| <= |s| && s[..|p|] == p
  }

  /** `s.find(p) == 0` is exactly "s starts with p". */
  lemma FindZeroIsPrefix(s: string, p: string)
    ensures Find(s, p) == 0 <==> StartsWith(s, p)
  {
    if |p| <= |s| && s[..|p|] == p {
      assert OccursAt(s, p, 0);
    }
  }

  // ---------------------------------------------------------------- split / join

  function FirstIndex(s: string, c: char): (i: nat)
    requires c in s
    ensures i < |s| && s[i] == c && c !in s[..i]
  {
    if s[0] == c then 0
    else
      var i := FirstIndex(s[1..], c);
      assert s[1..][..i] == s[1..i + 1];
      i + 1
  }

  /** Python's sep.join(parts). */
  function Join(parts: seq<string>, sep: string): string {
    if |parts| == 0 then ""
    else if |parts| == 1 then parts[0]
    else parts[0] + sep + Join(parts[1..], sep)
  }

  /** Joining one more part at the end adds the separator and the part. */
  lemma {:induction false} JoinSnoc(parts: seq<string>, last: string, sep: string)
    requires |parts| >= 1
    ensures Join(parts + [last], sep) == Join(parts, sep) + sep + last
  {
    if |parts| > 1 {
      assert (parts + [last])[1..] == parts[1..] + [last];
      JoinSnoc(parts[1..], last, sep);
    }
  }

  /** A character in neither the parts nor the separator is not in their
      join. */
  lemma {:induction false} JoinFree(parts: seq<string>, sep: string, c: char)
    requires c !in sep
    requires forall k :: 0 <= k < |parts| ==> c !in parts[k]
    ensures c !in Join(parts, sep)
  {
    if |parts| > 1 {
      JoinFree(parts[1..], sep, c);
    }
  }

  /** Python's s.split(sep) for a one-character separator: never empty,
      no part holds the separator, and joining the parts gives back `s`. */
  function Split(s: string, sep: char): (parts: seq<string>)
    decreases |s|
    ensures |parts| >= 1
    ensures forall k :: 0 <= k < |parts| ==> sep !in parts[k]
    ensures Join(parts, [sep]) == s
  {
    if sep !in s then [s]
    else
      var i := FirstIndex(s, sep);
      var rest := Split(s[i + 1..], sep);
      assert ([s[..i]] + rest)[1..] == rest;
      assert s == s[..i] + [sep] + s[i + 1..];
      [s[..i]] + rest
  }

  /** Splitting a join of separator-free parts gives the parts back. */
  lemma {:induction false} SplitJoin(parts: seq<string>, sep: char)
    requires |parts| >= 1
    requires forall k :: 0 <= k < |parts| ==> sep !in parts[k]
    ensures Split(Join(parts, [sep]), sep) == parts
  {
    if |parts| > 1 {
      var p0, rest := parts[0], parts[1..];
      var s := Join(parts, [sep]);
      assert s == p0 + [sep] + Join(rest, [sep]);
      assert s[|p0|] == sep;
      var i := FirstIndex(s, sep);
      assert s[..|p0|] == p0;
      assert i == |p0|;
      assert s[..i] == p0;
      assert s[i + 1..] == Join(rest, [sep]);
      SplitJoin(rest, sep);
    }
  }

  /** Python's s.splitlines(), for text whose only line break is '\n'. */
  function SplitLines(s: string): (lines: seq<string>)
    ensures forall k :: 0 <= k < |lines| ==> '\n' !in lines[k]
  {
    if s == "" then []
    else
      var p := Split(s, '\n');
      if p[|p| - 1] == "" then p[..|p| - 1] else p
  }

  /** Two parts without the separator split back apart. */
  lemma SplitPair(a: string, b: string, sep: char)
    requires sep !in a && sep !in b
    ensures Split(a + [sep] + b, sep) == [a, b]
  {
    SplitJoin([a, b], sep);
  }

  /** Lines without a line break, each ended by '\n', are the lines
      splitlines() gives back. */
  lemma SplitLinesJoin(lines: seq<string>)
    requires |lines| >= 1
    requires forall k :: 0 <= k < |lines| ==> '\n' !in lines[k]
    ensures SplitLines(Join(lines, "\n") + "\n") == lines
  {
    var parts := lines + [""];
    JoinSnoc(lines, "", "\n");
    assert Join(lines, "\n") + "\n" == Join(parts, "\n");
    assert forall k :: 0 <= k < |parts| ==> '\n' !in parts[k];
    SplitJoin(parts, '\n');
    assert parts[..|parts| - 1] == lines;
  }

  // ---------------------------------------------------------------- whitespace

  function LStrip(s: string): (r: string)
  {
    if |s| > 0 && IsSpace(s[0]) then LStrip(s[1..]) else s
  }

  /** Python's s.rstrip(): drops trailing whitespace and nothing else. */
  function RStrip(s: string): (r: string)
  {
    if |s| > 0 && IsSpace(s[|s| - 1]) then RStrip(s[..|s| - 1]) else s
  }

  /** Python's s.strip(). */
  function Strip(s: string): string {
    RStrip(LStrip(s))
  }

  /** Number of leading characters of `s` that are not whitespace. */
  function TokenLength(s: string): (n: nat)
    ensures n <= |s|
    ensures forall k :: 0 <= k < n ==> !IsSpace(s[k])
    ensures n < |s| ==> IsSpace(s[n])
  {
    if |s| == 0 || IsSpace(s[0]) then 0 else 1 + TokenLength(s[1..])
  }

  /** Python's s.split() with no argument: the maximal runs of
      non-whitespace characters, in order. */
  function SplitWs(s: string): (tokens: seq<string>)
    decreases |s|
  {
    if |s| == 0 then []
    else if IsSpace(s[0]) then SplitWs(s[1..])
    else
      var n := TokenLength(s);
      [s[..n]] + SplitWs(s[n..])
  }

  /** Every token of s.split() is non-empty and free of whitespace. */
  lemma {:induction false} SplitWsTokens(s: string)
    decreases |s|
    ensures forall k :: 0 <= k < |SplitWs(s)| ==>
      |SplitWs(s)[k]| > 0 && forall j :: 0 <= j < |SplitWs(s)[k]| ==> !IsSpace(SplitWs(s)[k][j])
  {
    if |s| > 0 {
      if IsSpace(s[0]) {
        SplitWsTokens(s[1..]);
      } else {
        var n := TokenLength(s);
        SplitWsTokens(s[n..]);
        assert SplitWs(s) == [s[..n]] + SplitWs(s[n..]);
      }
    }
  }

  /** Python's s.replace(c, ''). */
  function RemoveChar(s: string, c: char): (r: string)
    ensures c !in r
    ensures |r| <= |s|
  {
    if |s| == 0 then ""
    else (if s[0] == c then "" else [s[0]]) + RemoveChar(s[1..], c)
  }

  /** Python's s[i:j] with its rules for negative and out-of-range indices. */
  function PySlice(s: string, i: int, j: int): (r: string)
    ensures |r| <= |s|
  {
    var lo := if i < 0 then (if i + |s| < 0 then 0 else i + |s|) else (if i > |s| then |s| else i);
    var hi := if j < 0 then (if j + |s| < 0 then 0 else j + |s|) else (if j > |s| then |s| else j);
    if lo >= hi then "" else s[lo..hi]
  }

  // ---------------------------------------------------------------- numbers

  function DigitChar(d: nat): (c: char)
    requires d < 10
    ensures IsDigit(c) && c as int - '0' as int == d
  {
    ('0' as int + d) as char
  }

  /** The value of a string of decimal digits. */
  function DigitsValue(s: string): nat
    requires AllDigits(s)
  {
    if |s| == 0 then 0
    else DigitsValue(s[..|s| - 1]) * 10 + (s[|s| - 1] as int - '0' as int)
  }

  /** str(n) for a natural number. */
  function NatToString(n: nat): (s: string)
    ensures |s| >= 1 && AllDigits(s)
  {
    if n < 10 then [DigitChar(n)] else NatToString(n / 10) + [DigitChar(n % 10)]
  }

  /** str(i) for a Python int. */
  function IntToString(i: int): (s: string)
    ensures |s| >= 1
  {
    if i < 0 then "-" + NatToString(-i) else NatToString(i)
  }

  /** int(text) for a Python 2 str: surrounding whitespace, an optional sign
      and at least one decimal digit; anything else raises ValueError. */
  function ParseInt(text: string): Option<int> {
    var t := Strip(text);
    if |t| > 0 && (t[0] == '-' || t[0] == '+') then
      var ds := t[1..];
      if |ds| > 0 && AllDigits(ds) then
        var v: int := DigitsValue(ds);
        Some(if t[0] == '-' then -v else v)
      else None
    else if |t| > 0 && AllDigits(t) then Some(DigitsValue(t))
    else None
  }

  lemma {:induction false} NatToStringValue(n: nat)
    ensures DigitsValue(NatToString(n)) == n
  {
    if n >= 10 {
      var s := NatToString(n);
      assert s[..|s| - 1] == NatToString(n / 10);
      NatToStringValue(n / 10);
    }
  }

  /** Text with no whitespace at either end is left alone by strip(). */
  lemma StripUntrimmed(s: string)
    requires |s| > 0 && !IsSpace(s[0]) && !IsSpace(s[|s| - 1])
    ensures Strip(s) == s
  {
    assert LStrip(s) == s;
  }

  /** str(n) reads back as n. */
  lemma ParseNat(n: nat)
    ensures ParseInt(NatToString(n)) == Some(n)
  {
    var s := NatToString(n);
    NatToStringValue(n);
    StripUntrimmed(s);
  }

  /** A minus sign and str(n) read back as -n. */
  lemma ParseNegative(n: nat)
    ensures ParseInt("-" + NatToString(n)) == Some(-(n as int))
  {
    var ds := NatToString(n);
    var s := "-" + ds;
    assert s[0] == '-' && s[1..] == ds;
    NatToStringValue(n);
    StripUntrimmed(s);
  }

  /** int(str(i)) == i for a negative i. */
  lemma NegativeRoundTrip(i: int)
    requires i < 0
    ensures ParseInt(IntToString(i)) == Some(i)
  {
    ParseNegative(-i);
  }

  /** int(str(i)) == i for i >= 0. */
  lemma NonNegativeRoundTrip(i: int)
    requires i >= 0
    ensures ParseInt(IntToString(i)) == Some(i)
  {
    ParseNat(i);
  }

  /** int(str(i)) == i. */
  lemma IntToStringRoundTrip(i: int)
    ensures ParseInt(IntToString(i)) == Some(i)
  {
    if i < 0 {
      NegativeRoundTrip(i);
    } else {
      NonNegativeRoundTrip(i);
    }
  }

  lemma IntToStringHasNo(i: int, c: char)
    requires !IsDigit(c) && c != '-'
    ensures c !in IntToString(i)
  {
    var ds := NatToString(if i < 0 then -i else i);
    forall k | 0 <= k < |ds|
      ensures ds[k] != c
    {
      assert IsDigit(ds[k]);
    }
  }
}
