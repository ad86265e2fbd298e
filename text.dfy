/** The handful of Python string built-ins the modelled code relies on:
    decimal rendering of integers, `sep.join`, `str.split(c)[0]`, `in` on
    strings, `str.title()` and the quoting done by `repr` of a string. */
module Text {

  function DigitChar(d: nat): char
    requires d < 10
  {
    "0123456789"[d]
  }

  predicate IsDigit(c: char) { '0' <= c <= '9' }

  function DigitValue(c: char): nat
    requires IsDigit(c)
  {
    (c as int - '0' as int) as nat
  }

  /** `str(n)` for a non-negative Python int. */
  function NatToString(n: nat): (r: string)
    ensures |r| > 0
    ensures forall k :: 0 <= k < |r| ==> IsDigit(r[k])
    decreases n
  {
    if n < 10 then [DigitChar(n)] else NatToString(n / 10) + [DigitChar(n % 10)]
  }

  /** `str(i)` for a Python int. */
  function IntToString(i: int): string
  {
    if i < 0 then "-" + NatToString(-i) else NatToString(i)
  }

  /** The value of a string of ASCII digits read in base 10. */
  function DigitsValue(s: string): nat
    requires forall k :: 0 <= k < |s| ==> IsDigit(s[k])
  {
    if s == [] then 0 else 10 * DigitsValue(s[..|s| - 1]) + DigitValue(s[|s| - 1])
  }

  lemma {:induction false} NatToStringRoundTrip(n: nat)
    ensures DigitsValue(NatToString(n)) == n
    decreases n
  {
    var r := NatToString(n);
    if n >= 10 {
      NatToStringRoundTrip(n / 10);
      assert r[..|r| - 1] == NatToString(n / 10);
    }
  }

  /** `sep.join(parts)`. */
  function Join(parts: seq<string>, sep: string): string
  {
    if |parts| == 0 then ""
    else if |parts| == 1 then parts[0]
    else parts[0] + sep + Join(parts[1..], sep)
  }

  lemma JoinAppend(parts: seq<string>, last: string, sep: string)
    requires |parts| > 0
    ensures Join(parts + [last], sep) == Join(parts, sep) + sep + last
  {
    if |parts| > 1 {
      assert (parts + [last])[1..] == parts[1..] + [last];
      JoinAppend(parts[1..], last, sep);
    }
  }

  lemma JoinTwo(a: string, b: string, sep: string)
    ensures Join([a, b], sep) == a + sep + b
  {
    assert [a, b][1..] == [b];
  }

  /** A two-digit number is written as its tens digit then its units digit. */
  lemma TwoDigits(n: nat)
    requires 10 <= n < 100
    ensures NatToString(n) == [DigitChar(n / 10), DigitChar(n % 10)]
  {
  }

  lemma JoinTwoThenRest(a: string, b: string, rest: seq<string>, sep: string)
    requires |rest| > 0
    ensures Join([a, b] + rest, sep) == a + sep + b + sep + Join(rest, sep)
  {
    assert ([a, b] + rest)[1..] == [b] + rest;
    assert ([b] + rest)[1..] == rest;
  }

  /** `s.split(c)[0]`: everything before the first `c`, or all of `s`. */
  function BeforeFirst(s: string, c: char): (r: string)
    ensures |r| <= |s| && r == s[..|r|]
    ensures c !in r
    ensures |r| < |s| ==> s[|r|] == c
  {
    if s == [] then []
    else if s[0] == c then []
    else [s[0]] + BeforeFirst(s[1..], c)
  }

  lemma {:induction false} BeforeFirstAt(d: string, c: char, rest: string)
    requires c !in d
    ensures BeforeFirst(d + [c] + rest, c) == d
  {
    if d != [] {
      assert (d + [c] + rest)[1..] == d[1..] + [c] + rest;
      BeforeFirstAt(d[1..], c, rest);
    }
  }

  predicate IsPrefix(p: string, s: string)
  {
    |p| <= |s| && s[..|p|] == p
  }

  /** Python's `sub in s` on strings. */
  predicate Contains(s: string, sub: string)
    decreases |s|
  {
    IsPrefix(sub, s) || (|s| > 0 && Contains(s[1..], sub))
  }

  /** A string contains each of its prefixes. */
  lemma ContainsPrefix(p: string, rest: string)
    ensures Contains(p + rest, p)
  {
    assert (p + rest)[..|p|] == p;
  }

  /** Text found in `s` is still found after something is put in front. */
  lemma {:induction false} ContainsAfter(x: string, s: string, sub: string)
    requires Contains(s, sub)
    ensures Contains(x + s, sub)
    decreases |x|
  {
    if x != [] {
      assert (x + s)[1..] == x[1..] + s;
      ContainsAfter(x[1..], s, sub);
    } else {
      assert x + s == s;
    }
  }

  /** Text whose first character never occurs in `s` is not found in `s`. */
  lemma {:induction false} NotContainsFirst(s: string, sub: string)
    requires |sub| > 0 && sub[0] !in s
    ensures !Contains(s, sub)
    decreases |s|
  {
    if |s| > 0 {
      assert s[0] != sub[0];
      assert forall c :: c in s[1..] ==> c in s;
      NotContainsFirst(s[1..], sub);
    }
  }

  /** Every part of a join occurs in the joined text. */
  lemma {:induction false} JoinContains(parts: seq<string>, sep: string, i: nat)
    requires i < |parts|
    ensures Contains(Join(parts, sep), parts[i])
  {
    if |parts| == 1 {
      ContainsPrefix(parts[0], "");
      assert parts[0] + "" == parts[0];
    } else if i == 0 {
      ContainsPrefix(parts[0], sep + Join(parts[1..], sep));
      assert parts[0] + sep + Join(parts[1..], sep) == parts[0] + (sep + Join(parts[1..], sep));
    } else {
      JoinContains(parts[1..], sep, i - 1);
      ContainsAfter(parts[0] + sep, Join(parts[1..], sep), parts[i]);
    }
  }

  // ASCII case mapping; other characters are treated as uncased.

  predicate IsUpper(c: char) { 'A' <= c <= 'Z' }
  predicate IsLower(c: char) { 'a' <= c <= 'z' }
  predicate IsCased(c: char) { IsUpper(c) || IsLower(c) }

  function ToUpper(c: char): char
  {
    if IsLower(c) then (c as int - 32) as char else c
  }

  function ToLower(c: char): char
  {
    if IsUpper(c) then (c as int + 32) as char else c
  }

  /** `str.title()` continuing after a character that was (`prevCased`) or
      was not a cased letter: a cased character is upper-cased when it opens
      a word and lower-cased otherwise. */
  function TitleFrom(s: string, prevCased: bool): (r: string)
    ensures |r| == |s|
  {
    if s == [] then []
    else [if prevCased then ToLower(s[0]) else ToUpper(s[0])] + TitleFrom(s[1..], IsCased(s[0]))
  }

  /** `s.title()`. */
  function Title(s: string): string
  {
    TitleFrom(s, false)
  }

  lemma {:induction false} TitleFromIdempotent(s: string, prevCased: bool)
    ensures TitleFrom(TitleFrom(s, prevCased), prevCased) == TitleFrom(s, prevCased)
  {
    if s != [] {
      var t := TitleFrom(s, prevCased);
      var c := if prevCased then ToLower(s[0]) else ToUpper(s[0]);
      assert t[0] == c && t[1..] == TitleFrom(s[1..], IsCased(s[0]));
      assert IsCased(c) == IsCased(s[0]);
      TitleFromIdempotent(s[1..], IsCased(s[0]));
    }
  }

  /** Title-casing a name a second time changes nothing. */
  lemma TitleIdempotent(s: string)
    ensures Title(Title(s)) == Title(s)
  {
    TitleFromIdempotent(s, false);
  }

  /** In a title-cased string a letter that follows a non-letter is never
      lower-case. */
  lemma {:induction false} TitleFromWordStarts(s: string, prevCased: bool, k: nat)
    requires 0 < k < |s| && !IsCased(s[k - 1])
    ensures !IsLower(TitleFrom(s, prevCased)[k])
  {
    if k > 1 {
      TitleFromWordStarts(s[1..], IsCased(s[0]), k - 1);
    }
  }

  function EscapeFor(c: char, quote: char): string
  {
    if c == '\\' then "\\\\"
    else if c == quote then ['\\', quote]
    else if c == '\n' then "\\n"
    else if c == '\r' then "\\r"
    else if c == '\t' then "\\t"
    else [c]
  }

  function EscapeAll(s: string, quote: char): string
  {
    if s == [] then "" else EscapeFor(s[0], quote) + EscapeAll(s[1..], quote)
  }

  /** `repr(s)` of a string: single quotes unless the text holds a single
      quote and no double quote. */
  function QuoteString(s: string): string
  {
    var q := if '\'' in s && '"' !in s then '"' else '\'';
    [q] + EscapeAll(s, q) + [q]
  }
}
