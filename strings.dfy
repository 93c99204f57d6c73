/**
 * The few string operations of Python that the modelled code relies on:
 * decimal rendering of integers (f-strings), `str.strip`, `str.lower`,
 * `str.title` and the `in` substring test. Characters are treated as ASCII.
 */
module Strings {

  /** Python's default `strip()` set, restricted to ASCII. */
  predicate IsWhitespace(c: char) {
    var n := c as int;
    n == 32 || 9 <= n <= 13 || 28 <= n <= 31
  }

  predicate IsUpper(c: char) { 'A' <= c <= 'Z' }
  predicate IsLower(c: char) { 'a' <= c <= 'z' }
  predicate IsCased(c: char) { IsUpper(c) || IsLower(c) }

  function ToLowerChar(c: char): char {
    if IsUpper(c) then (c as int + 32) as char else c
  }

  function ToUpperChar(c: char): char {
    if IsLower(c) then (c as int - 32) as char else c
  }

  function Digit(d: nat): char
    requires d < 10
  {
    "0123456789"[d]
  }

  /** Decimal rendering of a natural number, as `str(n)` does. */
  function NatToString(n: nat): (s: string)
    ensures |s| >= 1
    ensures n >= 10 ==> |s| >= 2
  {
    if n < 10 then [Digit(n)] else NatToString(n / 10) + [Digit(n % 10)]
  }

  /** Decimal rendering of an integer, with a leading '-' for negatives. */
  function IntToString(i: int): string {
    if i < 0 then "-" + NatToString(-i) else NatToString(i)
  }

  lemma {:induction false} NatToStringInjective(a: nat, b: nat)
    requires NatToString(a) == NatToString(b)
    ensures a == b
    decreases a
  {
    var s := NatToString(a);
    if a >= 10 && b >= 10 {
      assert s[|s| - 1] == Digit(a % 10) == Digit(b % 10);
      assert NatToString(a / 10) == s[..|s| - 1] == NatToString(b / 10);
      NatToStringInjective(a / 10, b / 10);
    }
  }

  /** Two strings with a common prefix are equal exactly when their tails are. */
  lemma PrefixCancel(p: string, x: string, y: string)
    requires p + x == p + y
    ensures x == y
  {
    assert x == (p + x)[|p|..];
    assert y == (p + y)[|p|..];
  }

  /** `p + NatToString(n)` names n: distinct numbers give distinct strings. */
  lemma TaggedNumbersDistinct(p: string, a: nat, b: nat)
    requires a != b
    ensures p + NatToString(a) != p + NatToString(b)
  {
    if p + NatToString(a) == p + NatToString(b) {
      PrefixCancel(p, NatToString(a), NatToString(b));
      NatToStringInjective(a, b);
    }
  }

  function Lower(s: string): (r: string)
    ensures |r| == |s|
    ensures forall i :: 0 <= i < |s| ==> r[i] == ToLowerChar(s[i])
  {
    if s == [] then [] else [ToLowerChar(s[0])] + Lower(s[1..])
  }

  function TrimLeft(s: string): string {
    if s != [] && IsWhitespace(s[0]) then TrimLeft(s[1..]) else s
  }

  function TrimRight(s: string): string {
    if s != [] && IsWhitespace(s[|s| - 1]) then TrimRight(s[..|s| - 1]) else s
  }

  /** Python's `s.strip()`. */
  function Strip(s: string): string {
    TrimRight(TrimLeft(s))
  }

  lemma {:induction false} TrimRightLeavesNoTrailingSpace(s: string)
    ensures var r := TrimRight(s); r == [] || !IsWhitespace(r[|r| - 1])
    ensures TrimRight(s) <= s
    decreases |s|
  {
    if s != [] && IsWhitespace(s[|s| - 1]) {
      TrimRightLeavesNoTrailingSpace(s[..|s| - 1]);
    }
  }

  /** Stripping removes only trailing blanks once the text starts with a non-blank. */
  lemma {:induction false} StripOfTrailingBlanks(g: string, blanks: string)
    requires g != [] && !IsWhitespace(g[0]) && !IsWhitespace(g[|g| - 1])
    requires forall i :: 0 <= i < |blanks| ==> IsWhitespace(blanks[i])
    ensures Strip(g + blanks) == g
    decreases |blanks|
  {
    assert TrimLeft(g + blanks) == g + blanks by {
      assert (g + blanks)[0] == g[0];
    }
    if blanks == [] {
      assert g + blanks == g;
    } else {
      var shorter := blanks[..|blanks| - 1];
      assert (g + blanks)[..|g + blanks| - 1] == g + shorter;
      assert (g + blanks)[|g + blanks| - 1] == blanks[|blanks| - 1];
      StripOfTrailingBlanks(g, shorter);
      assert TrimLeft(g + shorter) == g + shorter by {
        assert (g + shorter)[0] == g[0];
      }
    }
  }

  /** Python's `str.title()`: the first letter of every run of letters upper-cased, the rest lower-cased. */
  function TitleFrom(s: string, afterLetter: bool): (r: string)
    ensures |r| == |s|
  {
    if s == [] then []
    else
      var c := s[0];
      var c' := if !IsCased(c) then c else if afterLetter then ToLowerChar(c) else ToUpperChar(c);
      [c'] + TitleFrom(s[1..], IsCased(c))
  }

  function Title(s: string): (r: string)
    ensures |r| == |s|
  {
    TitleFrom(s, false)
  }

  lemma {:induction false} TitleFromIdempotent(s: string, afterLetter: bool)
    ensures TitleFrom(TitleFrom(s, afterLetter), afterLetter) == TitleFrom(s, afterLetter)
    decreases |s|
  {
    if s != [] {
      var r := TitleFrom(s, afterLetter);
      assert r[1..] == TitleFrom(s[1..], IsCased(s[0]));
      assert IsCased(r[0]) == IsCased(s[0]);
      TitleFromIdempotent(s[1..], IsCased(s[0]));
    }
  }

  /** Title-casing is idempotent. */
  lemma TitleIdempotent(s: string)
    ensures Title(Title(s)) == Title(s)
  {
    TitleFromIdempotent(s, false);
  }

  /** Python's `sub in s`. */
  predicate Contains(s: string, sub: string)
    decreases |s|
  {
    sub <= s || (s != [] && Contains(s[1..], sub))
  }

  lemma {:induction false} ContainsAt(s: string, sub: string, i: nat)
    requires i + |sub| <= |s| && s[i..i + |sub|] == sub
    ensures Contains(s, sub)
    decreases i
  {
    if i > 0 {
      assert s[1..][i - 1..i - 1 + |sub|] == sub;
      ContainsAt(s[1..], sub, i - 1);
    }
  }

  /** A string contains each of its suffixes. */
  lemma ContainsSuffix(head: string, tail: string)
    ensures Contains(head + tail, tail)
  {
    assert (head + tail)[|head|..|head| + |tail|] == tail;
    ContainsAt(head + tail, tail, |head|);
  }
}
