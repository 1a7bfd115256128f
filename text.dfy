/** Option and Result, used for absent values and error returns. */
module Basics {

  datatype Option<+T> = None | Some(value: T)

  datatype Result<+T, +E> = Ok(value: T) | Err(error: E)
}

/**
 * The handful of Python string operations the bot manager relies on:
 * `strip()`, `lstrip(chars)`, `rstrip(chars)`, `startswith` and the
 * `lower()` used by the token check. Strings are sequences of Unicode
 * scalar values, as Python's `str` is.
 */
module Text {

  /** Python's `str.isspace()` for a single character. */
  predicate IsSpace(c: char) {
    || c == ' '
    || ('\t' <= c <= '\r')
    || ('\U{1c}' <= c <= '\U{1f}')
    || c == '\U{85}' || c == '\U{a0}' || c == '\U{1680}'
    || ('\U{2000}' <= c <= '\U{200a}')
    || c == '\U{2028}' || c == '\U{2029}' || c == '\U{202f}'
    || c == '\U{205f}' || c == '\U{3000}'
  }

  /** No leading or trailing whitespace: what `strip()` returns. */
  predicate Stripped(s: string) {
    s == [] || (!IsSpace(s[0]) && !IsSpace(s[|s| - 1]))
  }

  /**
   * Python's `s.strip()`: `s` without its leading and trailing whitespace.
   */
  function Strip(s: string): (r: string)
    ensures Stripped(r)
    ensures |r| <= |s|
  {
    if s == [] then s
    else if IsSpace(s[0]) then Strip(s[1..])
    else if IsSpace(s[|s| - 1]) then Strip(s[..|s| - 1])
    else s
  }

  /** Length of the whitespace prefix of `s`. */
  function LeadingSpace(s: string): (n: nat)
    ensures n <= |s|
    ensures forall i :: 0 <= i < n ==> IsSpace(s[i])
    ensures n == |s| || !IsSpace(s[n])
  {
    if s != [] && IsSpace(s[0]) then 1 + LeadingSpace(s[1..]) else 0
  }

  /** What `strip()` keeps is the infix of `s` that starts where its leading whitespace ends; what it removes is whitespace. */
  lemma {:induction false} StripInfix(s: string)
    ensures LeadingSpace(s) + |Strip(s)| <= |s|
    ensures Strip(s) == s[LeadingSpace(s)..LeadingSpace(s) + |Strip(s)|]
    ensures forall i :: LeadingSpace(s) + |Strip(s)| <= i < |s| ==> IsSpace(s[i])
  {
    if s == [] {
    } else if IsSpace(s[0]) {
      StripInfix(s[1..]);
    } else if IsSpace(s[|s| - 1]) {
      var t := s[..|s| - 1];
      StripInfix(t);
      assert LeadingSpace(s) == 0 == LeadingSpace(t) by { assert t[0] == s[0]; }
    }
  }

  /** Python's `s.lstrip('#')`. */
  function LStripHashes(s: string): (r: string)
    ensures |r| <= |s| && r == s[|s| - |r|..]
    ensures forall i :: 0 <= i < |s| - |r| ==> s[i] == '#'
    ensures r == [] || r[0] != '#'
  {
    if s != [] && s[0] == '#' then LStripHashes(s[1..]) else s
  }

  /** Python's `s.rstrip('\r\n')`. */
  function RStripLineBreaks(s: string): (r: string)
    ensures |r| <= |s| && r == s[..|r|]
    ensures forall i :: |r| <= i < |s| ==> s[i] == '\r' || s[i] == '\n'
    ensures r == [] || (r[|r| - 1] != '\r' && r[|r| - 1] != '\n')
  {
    if s != [] && (s[|s| - 1] == '\r' || s[|s| - 1] == '\n') then RStripLineBreaks(s[..|s| - 1]) else s
  }

  lemma StripOfStripped(s: string)
    requires Stripped(s)
    ensures Strip(s) == s
  {
  }

  /** `strip()` yields the empty string exactly when every character is whitespace. */
  lemma StripEmpty(s: string)
    ensures Strip(s) == [] <==> forall i :: 0 <= i < |s| ==> IsSpace(s[i])
  {
    StripInfix(s);
    if Strip(s) == [] {
      forall i | 0 <= i < |s| ensures IsSpace(s[i]) {
        assert i < LeadingSpace(s) || LeadingSpace(s) + |Strip(s)| <= i;
      }
    } else {
      var k := LeadingSpace(s);
      assert s[k] == Strip(s)[0];
      assert !IsSpace(s[k]);
    }
  }

  /** `strip()` only removes characters, so a character absent from `s` is absent from the result. */
  lemma StripExcludes(s: string, c: char)
    requires c !in s
    ensures c !in Strip(s)
  {
    StripInfix(s);
  }

  predicate StartsWith(s: string, prefix: string) {
    |prefix| <= |s| && s[..|prefix|] == prefix
  }

  /** Lower-casing of a single character, as `str.lower()` does for ASCII letters. */
  function LowerChar(c: char): char {
    if 'A' <= c <= 'Z' then (c as int + 32) as char else c
  }

  function Lower(s: string): (r: string)
    ensures |r| == |s|
    ensures forall i :: 0 <= i < |s| ==> r[i] == LowerChar(s[i])
  {
    seq(|s|, i requires 0 <= i < |s| => LowerChar(s[i]))
  }

  /** Position of the first occurrence of `c` in `s`. */
  function FirstIndex(s: string, c: char): (i: nat)
    requires c in s
    ensures i < |s| && s[i] == c && c !in s[..i]
  {
    if s[0] == c then 0
    else
      assert c in s[1..] by { assert s == [s[0]] + s[1..]; }
      var j := FirstIndex(s[1..], c);
      assert s[..j + 1] == [s[0]] + s[1..][..j];
      j + 1
  }

  /** Python's `s.split(c, 1)` on a string that contains `c`. */
  function SplitFirst(s: string, c: char): (r: (string, string))
    requires c in s
    ensures s == r.0 + [c] + r.1
    ensures c !in r.0
  {
    var i := FirstIndex(s, c);
    assert s == s[..i] + [c] + s[i + 1..];
    (s[..i], s[i + 1..])
  }

  /** A split at the first `c` is the only split whose left part is free of `c`. */
  lemma {:induction false} SplitFirstUnique(u: string, c: char, t: string)
    requires c !in u
    ensures c in u + [c] + t
    ensures SplitFirst(u + [c] + t, c) == (u, t)
  {
    var s := u + [c] + t;
    assert s[|u|] == c;
    var r := SplitFirst(s, c);
    var i := |r.0|;
    assert r.0 == s[..i] == u;
    assert r.1 == s[i + 1..] == t;
  }
}
