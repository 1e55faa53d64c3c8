/**
 * The string operations of JavaScript that the dashboard relies on:
 * `toLowerCase` (restricted to ASCII), `includes`, `trim`, and the decimal
 * rendering of a whole number inside a template literal.
 */
module Strings {

  // ---------------------------------------------------------------------
  // Lower-casing

  /** ASCII lower-casing of one character; every other character is kept. */
  function LowerChar(c: char): (r: char)
    ensures !('A' <= r <= 'Z')
    ensures 'A' <= c <= 'Z' ==> r as int == c as int + 32 && 'a' <= r <= 'z'
    ensures 'a' <= c <= 'z' || !('A' <= c <= 'Z') ==> r == c
  {
    if 'A' <= c <= 'Z' then (c as int + 32) as char else c
  }

  function Lower(s: string): (r: string)
    ensures |r| == |s|
    ensures forall i :: 0 <= i < |s| ==> r[i] == LowerChar(s[i])
  {
    seq(|s|, i requires 0 <= i < |s| => LowerChar(s[i]))
  }

  /** Lower-casing twice is lower-casing once. */
  lemma LowerIdempotent(s: string)
    ensures Lower(Lower(s)) == Lower(s)
  {
  }

  // ---------------------------------------------------------------------
  // Substring search (`String.prototype.includes`)

  predicate IsPrefix(p: string, s: string) {
    |p| <= |s| && s[..|p|] == p
  }

  /** `s.includes(t)`: t occurs somewhere in s (the empty string occurs everywhere). */
  predicate Contains(s: string, t: string)
    ensures Contains(s, t) ==> |t| <= |s|
    decreases |s|
  {
    IsPrefix(t, s) || (|s| > 0 && Contains(s[1..], t))
  }

  /** t occurs in s starting at position i. */
  ghost predicate OccursAt(s: string, t: string, i: int) {
    0 <= i && i + |t| <= |s| && s[i..i + |t|] == t
  }

  lemma EmptyIsContained(s: string)
    ensures Contains(s, "")
  {
  }

  /** The recursive search finds t exactly when t occurs at some position of s. */
  lemma {:induction false} ContainsIffOccurs(s: string, t: string)
    ensures Contains(s, t) <==> exists i :: OccursAt(s, t, i)
    decreases |s|
  {
    if IsPrefix(t, s) {
      assert OccursAt(s, t, 0);
    } else if |s| == 0 {
      assert !OccursAt(s, t, 0);
    } else {
      ContainsIffOccurs(s[1..], t);
      forall i | OccursAt(s[1..], t, i) ensures OccursAt(s, t, i + 1) {
        assert s[1..][i..i + |t|] == s[i + 1..i + 1 + |t|];
      }
      assert !OccursAt(s, t, 0);
      forall i | OccursAt(s, t, i) ensures OccursAt(s[1..], t, i - 1) {
        assert s[1..][i - 1..i - 1 + |t|] == s[i..i + |t|];
      }
    }
  }

  // ---------------------------------------------------------------------
  // Trimming (`String.prototype.trim`)

  /**
   * The characters `trim` removes: ECMAScript WhiteSpace (tab, vertical tab,
   * form feed, the byte order mark and every space separator) and
   * LineTerminator (line feed, carriage return, the line and paragraph
   * separators).
   */
  predicate IsWhiteSpace(c: char)
    ensures IsWhiteSpace(c) ==> !('0' <= c <= '9' || 'A' <= c <= 'Z' || 'a' <= c <= 'z')
  {
    c == '\t' || c == '\n' || c == '\U{000B}' || c == '\U{000C}' || c == '\r'
    || c == ' ' || c == '\U{00A0}' || c == '\U{1680}'
    || ('\U{2000}' <= c <= '\U{200A}')
    || c == '\U{2028}' || c == '\U{2029}' || c == '\U{202F}' || c == '\U{205F}'
    || c == '\U{3000}' || c == '\U{FEFF}'
  }

  ghost predicate AllWhiteSpace(s: string) {
    forall i :: 0 <= i < |s| ==> IsWhiteSpace(s[i])
  }

  lemma WhiteSpaceCons(c: char, s: string)
    requires IsWhiteSpace(c) && AllWhiteSpace(s)
    ensures AllWhiteSpace([c] + s)
  {
    assert forall i :: 1 <= i < |s| + 1 ==> ([c] + s)[i] == s[i - 1];
  }

  lemma WhiteSpaceSnoc(s: string, c: char)
    requires AllWhiteSpace(s) && IsWhiteSpace(c)
    ensures AllWhiteSpace(s + [c])
  {
    assert forall i :: 0 <= i < |s| ==> (s + [c])[i] == s[i];
  }

  /** Drops the leading white space: what is dropped is white space, what is kept does not start with it. */
  function TrimStart(s: string): (r: string)
    ensures |r| <= |s| && r == s[|s| - |r|..]
    ensures AllWhiteSpace(s[..|s| - |r|])
    ensures r == [] || !IsWhiteSpace(r[0])
  {
    if |s| > 0 && IsWhiteSpace(s[0]) then
      var r := TrimStart(s[1..]);
      assert s[..|s| - |r|] == [s[0]] + s[1..][..|s[1..]| - |r|];
      WhiteSpaceCons(s[0], s[1..][..|s[1..]| - |r|]);
      r
    else
      s
  }

  /** Drops the trailing white space: what is dropped is white space, what is kept does not end with it. */
  function TrimEnd(s: string): (r: string)
    ensures |r| <= |s| && r == s[..|r|]
    ensures AllWhiteSpace(s[|r|..])
    ensures r == [] || !IsWhiteSpace(r[|r| - 1])
  {
    if |s| > 0 && IsWhiteSpace(s[|s| - 1]) then
      var r := TrimEnd(s[..|s| - 1]);
      assert s[|r|..] == s[..|s| - 1][|r|..] + [s[|s| - 1]];
      WhiteSpaceSnoc(s[..|s| - 1][|r|..], s[|s| - 1]);
      r
    else
      s
  }

  /** `s.trim()`: a middle slice of s, neither starting nor ending with white space. */
  function Trim(s: string): (r: string)
    ensures r == [] || (!IsWhiteSpace(r[0]) && !IsWhiteSpace(r[|r| - 1]))
  {
    var t := TrimStart(s);
    var r := TrimEnd(t);
    assert r != [] ==> r[0] == t[0];
    r
  }

  /** A string of white space only (the empty string included) trims to the empty string. */
  lemma {:induction false} WhiteSpaceTrimsToEmpty(s: string)
    requires AllWhiteSpace(s)
    ensures Trim(s) == ""
  {
    if |s| > 0 {
      assert IsWhiteSpace(s[0]);
      WhiteSpaceOnlyTrimStart(s);
    }
  }

  lemma {:induction false} WhiteSpaceOnlyTrimStart(s: string)
    requires AllWhiteSpace(s)
    ensures TrimStart(s) == ""
    decreases |s|
  {
    if |s| > 0 {
      assert IsWhiteSpace(s[0]);
      WhiteSpaceOnlyTrimStart(s[1..]);
    }
  }

  lemma {:induction false} TrimStartPadded(a: string, t: string)
    requires AllWhiteSpace(a)
    requires t == [] || !IsWhiteSpace(t[0])
    ensures TrimStart(a + t) == t
    decreases |a|
  {
    if a != [] {
      assert (a + t)[0] == a[0] && IsWhiteSpace(a[0]);
      assert (a + t)[1..] == a[1..] + t;
      TrimStartPadded(a[1..], t);
    } else {
      assert a + t == t;
    }
  }

  lemma {:induction false} TrimEndPadded(t: string, b: string)
    requires AllWhiteSpace(b)
    requires t == [] || !IsWhiteSpace(t[|t| - 1])
    ensures TrimEnd(t + b) == t
    decreases |b|
  {
    if b != [] {
      var u := t + b;
      assert u[|u| - 1] == b[|b| - 1] && IsWhiteSpace(b[|b| - 1]);
      assert u[..|u| - 1] == t + b[..|b| - 1];
      TrimEndPadded(t, b[..|b| - 1]);
    } else {
      assert t + b == t;
    }
  }

  /** White space around a string that neither starts nor ends with white space is exactly what `trim` removes. */
  lemma TrimPadded(a: string, s: string, b: string)
    requires AllWhiteSpace(a) && AllWhiteSpace(b)
    requires s == [] || (!IsWhiteSpace(s[0]) && !IsWhiteSpace(s[|s| - 1]))
    ensures Trim(a + s + b) == s
  {
    if s == [] {
      assert a + s + b == a + b;
      assert AllWhiteSpace(a + b) by {
        forall i | 0 <= i < |a + b| ensures IsWhiteSpace((a + b)[i]) {
          if i < |a| { assert (a + b)[i] == a[i]; } else { assert (a + b)[i] == b[i - |a|]; }
        }
      }
      WhiteSpaceTrimsToEmpty(a + b);
    } else {
      assert a + s + b == a + (s + b);
      assert (s + b)[0] == s[0];
      TrimStartPadded(a, s + b);
      TrimEndPadded(s, b);
    }
  }

  /** A string without surrounding white space is its own trim. */
  lemma TrimOfTrimmed(s: string)
    requires s == [] || (!IsWhiteSpace(s[0]) && !IsWhiteSpace(s[|s| - 1]))
    ensures Trim(s) == s
  {
    assert TrimStart(s) == s;
    assert TrimEnd(s) == s;
  }

  // ---------------------------------------------------------------------
  // Decimal rendering of a whole number

  function DigitChar(d: nat): (c: char)
    requires d < 10
    ensures '0' <= c <= '9' && c as int - '0' as int == d
  {
    ['0', '1', '2', '3', '4', '5', '6', '7', '8', '9'][d]
  }

  ghost predicate AllDigits(s: string) {
    forall i :: 0 <= i < |s| ==> '0' <= s[i] <= '9'
  }

  /** The number a run of decimal digits spells, most significant first. */
  function DigitsValue(s: string): nat
    requires AllDigits(s)
  {
    if s == [] then 0 else 10 * DigitsValue(s[..|s| - 1]) + (s[|s| - 1] as int - '0' as int)
  }

  /** The decimal digits of n, most significant first, without leading zeros: they spell n. */
  function NatToString(n: nat): (r: string)
    ensures |r| > 0 && AllDigits(r)
    ensures r[0] == '0' ==> r == "0"
    ensures DigitsValue(r) == n
  {
    if n < 10 then [DigitChar(n)]
    else
      var front := NatToString(n / 10);
      var r := front + [DigitChar(n % 10)];
      assert r[..|r| - 1] == front;
      assert r[0] == front[0];
      r
  }
}
