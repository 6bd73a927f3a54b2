/**
 * String operations that the JavaScript and Python code uses through its
 * standard libraries: prefix and substring tests, the two `replace`s,
 * `strip`/`lstrip`, JavaScript's `trim`, ASCII case folding and decimal
 * conversion.
 */
module Strings {
  import opened Wrappers

  predicate StartsWith(s: string, p: string) {
    |p| <= |s| && s[..|p|] == p
  }

  /** `p` occurs in `s` at index `i`. */
  predicate OccursAt(s: string, p: string, i: int) {
    0 <= i && i + |p| <= |s| && s[i..i + |p|] == p
  }

  /** Python's `p in s` and JavaScript's `s.includes(p)`. */
  predicate Contains(s: string, p: string) {
    exists i :: 0 <= i <= |s| - |p| && OccursAt(s, p, i)
  }

  lemma ContainsPrefix(s: string, p: string)
    requires StartsWith(s, p)
    ensures Contains(s, p)
  {
    assert OccursAt(s, p, 0);
  }

  lemma ContainsAppend(s: string, t: string, p: string)
    requires Contains(s, p)
    ensures Contains(s + t, p)
  {
    var i :| 0 <= i <= |s| - |p| && OccursAt(s, p, i);
    assert (s + t)[i..i + |p|] == s[i..i + |p|];
    assert OccursAt(s + t, p, i);
  }

  lemma ContainsSuffix(s: string, t: string, p: string)
    requires Contains(t, p)
    ensures Contains(s + t, p)
  {
    var i :| 0 <= i <= |t| - |p| && OccursAt(t, p, i);
    assert (s + t)[|s| + i..|s| + i + |p|] == t[i..i + |p|];
    assert OccursAt(s + t, p, |s| + i);
  }

  /** A string in which character `c` does not occur contains no pattern holding `c`. */
  lemma NotContainsWithout(s: string, p: string, c: char)
    requires c in p && c !in s
    ensures !Contains(s, p)
  {
    var k :| 0 <= k < |p| && p[k] == c;
    forall i | 0 <= i <= |s| - |p|
      ensures !OccursAt(s, p, i)
    {
      assert s[i..i + |p|][k] == s[i + k] != p[k];
    }
  }

  /** Python's `s.replace(p, '')`: every non-overlapping occurrence, left to right, removed. */
  function RemoveAll(s: string, p: string): string
    requires |p| > 0
    decreases |s|
  {
    if |s| < |p| then s
    else if s[..|p|] == p then RemoveAll(s[|p|..], p)
    else [s[0]] + RemoveAll(s[1..], p)
  }

  lemma {:induction false} RemoveAllAbsent(s: string, p: string, c: char)
    requires |p| > 0 && c in p && c !in s
    ensures RemoveAll(s, p) == s
    decreases |s|
  {
    if |s| >= |p| {
      var k :| 0 <= k < |p| && p[k] == c;
      assert s[..|p|][k] != p[k];
      RemoveAllAbsent(s[1..], p, c);
      assert [s[0]] + s[1..] == s;
    }
  }

  /** JavaScript's `s.replace(p, r)` with a string pattern: only the first occurrence is replaced. */
  function ReplaceFirst(s: string, p: string, r: string): string
    decreases |s|
  {
    if StartsWith(s, p) then r + s[|p|..]
    else if s == [] then s
    else [s[0]] + ReplaceFirst(s[1..], p, r)
  }

  /** Python's `s.replace(c, '')` for a single character. */
  function RemoveChar(s: string, c: char): string {
    if s == [] then []
    else (if s[0] == c then [] else [s[0]]) + RemoveChar(s[1..], c)
  }

  lemma {:induction false} RemoveCharAppend(s: string, t: string, c: char)
    ensures RemoveChar(s + t, c) == RemoveChar(s, c) + RemoveChar(t, c)
  {
    if s != [] {
      assert (s + t)[1..] == s[1..] + t;
      RemoveCharAppend(s[1..], t, c);
    } else {
      assert s + t == t;
    }
  }

  lemma {:induction false} RemoveCharAbsent(s: string, c: char)
    requires c !in s
    ensures RemoveChar(s, c) == s
  {
    if s != [] {
      RemoveCharAbsent(s[1..], c);
      assert [s[0]] + s[1..] == s;
    }
  }

  /** Python's `s.lstrip(chars)`. */
  function StripStart(s: string, chars: set<char>): (r: string)
    ensures |r| <= |s| && r == s[|s| - |r|..]
    ensures r == [] || r[0] !in chars
  {
    if s != [] && s[0] in chars then StripStart(s[1..], chars) else s
  }

  /** What `lstrip` removes consists of the given characters only. */
  lemma {:induction false} StripStartRemoves(s: string, chars: set<char>)
    ensures forall i :: 0 <= i < |s| - |StripStart(s, chars)| ==> s[i] in chars
  {
    if s != [] && s[0] in chars {
      StripStartRemoves(s[1..], chars);
    }
  }

  /** Python's `s.rstrip(chars)`. */
  function StripEnd(s: string, chars: set<char>): (r: string)
    ensures |r| <= |s| && r == s[..|r|]
    ensures r == [] || r[|r| - 1] !in chars
  {
    if s != [] && s[|s| - 1] in chars then StripEnd(s[..|s| - 1], chars) else s
  }

  /** Python's `s.strip(chars)`. */
  function Strip(s: string, chars: set<char>): string {
    StripEnd(StripStart(s, chars), chars)
  }

  /** `lstrip` removes a prefix of stripped characters up to the first other one. */
  lemma {:induction false} StripStartPrefix(pre: string, x: string, chars: set<char>)
    requires forall i :: 0 <= i < |pre| ==> pre[i] in chars
    requires x != [] && x[0] !in chars
    ensures StripStart(pre + x, chars) == x
  {
    if pre != [] {
      assert (pre + x)[1..] == pre[1..] + x;
      StripStartPrefix(pre[1..], x, chars);
    }
  }

  /** `rstrip` removes a suffix of stripped characters back to the last other one. */
  lemma {:induction false} StripEndSuffix(y: string, post: string, chars: set<char>)
    requires forall i :: 0 <= i < |post| ==> post[i] in chars
    requires y != [] && y[|y| - 1] !in chars
    ensures StripEnd(y + post, chars) == y
  {
    if post != [] {
      var p := post[..|post| - 1];
      assert (y + post)[..|y + post| - 1] == y + p;
      StripEndSuffix(y, p, chars);
    }
  }

  /**
   * The characters JavaScript's `trim` removes and its regular-expression
   * class `\s` matches: WhiteSpace and LineTerminator of ECMA-262.
   */
  predicate IsJsSpace(c: char) {
    c == '\t' || c == '\n' || c == '\U{000B}' || c == '\U{000C}' || c == '\r' || c == ' '
    || c == '\U{00A0}' || c == '\U{1680}' || ('\U{2000}' <= c <= '\U{200A}')
    || c == '\U{2028}' || c == '\U{2029}' || c == '\U{202F}' || c == '\U{205F}'
    || c == '\U{3000}' || c == '\U{FEFF}'
  }

  function TrimStart(s: string): (r: string)
    ensures |r| <= |s| && r == s[|s| - |r|..]
    ensures r == [] || !IsJsSpace(r[0])
    ensures forall i :: 0 <= i < |s| - |r| ==> IsJsSpace(s[i])
  {
    if s != [] && IsJsSpace(s[0]) then TrimStart(s[1..]) else s
  }

  function TrimEnd(s: string): (r: string)
    ensures |r| <= |s| && r == s[..|r|]
    ensures r == [] || !IsJsSpace(r[|r| - 1])
    ensures forall i :: |r| <= i < |s| ==> IsJsSpace(s[i])
  {
    if s != [] && IsJsSpace(s[|s| - 1]) then TrimEnd(s[..|s| - 1]) else s
  }

  /** JavaScript's `s.trim()`. */
  function Trim(s: string): string {
    TrimEnd(TrimStart(s))
  }

  /** `s.trim()` is empty exactly when every character of `s` is white space. */
  lemma TrimEmpty(s: string)
    ensures Trim(s) == "" <==> forall i :: 0 <= i < |s| ==> IsJsSpace(s[i])
  {
    if forall i :: 0 <= i < |s| ==> IsJsSpace(s[i]) {
      TrimStartAllSpace(s);
      assert TrimEnd([]) == [];
    } else {
      var k :| 0 <= k < |s| && !IsJsSpace(s[k]);
      TrimKeeps(s, k);
    }
  }

  /** A character that is not white space survives `trim`. */
  lemma TrimKeeps(s: string, k: nat)
    requires k < |s| && !IsJsSpace(s[k])
    ensures Trim(s) != ""
  {
    var t := TrimStart(s);
    var j := k - (|s| - |t|);
    assert 0 <= j < |t| && t[j] == s[k];
    assert j < |TrimEnd(t)|;
  }

  lemma {:induction false} TrimStartAllSpace(s: string)
    requires forall i :: 0 <= i < |s| ==> IsJsSpace(s[i])
    ensures TrimStart(s) == []
  {
    if s != [] {
      TrimStartAllSpace(s[1..]);
    }
  }

  /** A trimmed string starts and ends with a non-space character. */
  lemma TrimEnds(s: string)
    ensures var r := Trim(s); r == [] || (!IsJsSpace(r[0]) && !IsJsSpace(r[|r| - 1]))
  {
    var t := TrimStart(s);
    var r := TrimEnd(t);
    if r != [] {
      assert r[0] == t[0];
    }
  }

  /** Lower-casing as Python's `bytes.lower` and Rust's `to_ascii_lowercase` do: only `A`-`Z` change. */
  function AsciiLower(c: char): char {
    if 'A' <= c <= 'Z' then (c as int + 32) as char else c
  }

  function AsciiLowerString(s: string): (r: string)
    ensures |r| == |s| && forall i :: 0 <= i < |s| ==> r[i] == AsciiLower(s[i])
  {
    if s == [] then [] else [AsciiLower(s[0])] + AsciiLowerString(s[1..])
  }

  /** Rust's `eq_ignore_ascii_case`: equal lengths, and equal characters once lower-cased. */
  predicate EqIgnoringAsciiCase(a: string, b: string) {
    |a| == |b| && forall i :: 0 <= i < |a| ==> AsciiLower(a[i]) == AsciiLower(b[i])
  }

  predicate NoAsciiCapitals(w: string) {
    forall i :: 0 <= i < |w| ==> !('A' <= w[i] <= 'Z')
  }

  /** Against a string without capitals, ignoring case means lower-casing the other side. */
  lemma LowerMatchesIgnoringCase(v: string, w: string)
    requires NoAsciiCapitals(w)
    ensures AsciiLowerString(v) == w <==> EqIgnoringAsciiCase(v, w)
  {
    if EqIgnoringAsciiCase(v, w) {
      var l := AsciiLowerString(v);
      forall i | 0 <= i < |w|
        ensures l[i] == w[i]
      {
        assert AsciiLower(w[i]) == w[i];
      }
    }
  }

  /** Lower-casing lands in a set of capital-free strings exactly when some member matches ignoring case. */
  lemma LowerInIgnoringCase(v: string, spellings: set<string>)
    requires forall w :: w in spellings ==> NoAsciiCapitals(w)
    ensures AsciiLowerString(v) in spellings <==> exists w :: w in spellings && EqIgnoringAsciiCase(v, w)
  {
    if AsciiLowerString(v) in spellings {
      LowerMatchesIgnoringCase(v, AsciiLowerString(v));
    }
    if exists w :: w in spellings && EqIgnoringAsciiCase(v, w) {
      var w :| w in spellings && EqIgnoringAsciiCase(v, w);
      LowerMatchesIgnoringCase(v, w);
    }
  }

  lemma AsciiLowerStringIdempotent(s: string)
    ensures AsciiLowerString(AsciiLowerString(s)) == AsciiLowerString(s)
  {
  }

  predicate IsDigit(c: char) {
    '0' <= c <= '9'
  }

  function DigitValue(c: char): nat
    requires IsDigit(c)
  {
    c as int - '0' as int
  }

  /** The decimal digits of `n`, most significant first, without leading zeros. */
  function NatToString(n: nat): (r: string)
    ensures |r| > 0 && forall i :: 0 <= i < |r| ==> IsDigit(r[i])
    ensures r[0] == '0' ==> n == 0
  {
    if n < 10 then [('0' as int + n) as char]
    else NatToString(n / 10) + [('0' as int + n % 10) as char]
  }

  /** Python's `str(n)` for an integer. */
  function IntToString(n: int): string {
    if n < 0 then "-" + NatToString(-n) else NatToString(n)
  }

  /** The value of a non-empty string of decimal digits. */
  function DigitsValue(s: string): nat
    requires forall i :: 0 <= i < |s| ==> IsDigit(s[i])
  {
    if s == [] then 0 else DigitsValue(s[..|s| - 1]) * 10 + DigitValue(s[|s| - 1])
  }

  /** Reading back the digits `NatToString` writes gives the number again. */
  lemma {:induction false} DigitsValueOfNatToString(n: nat)
    ensures DigitsValue(NatToString(n)) == n
  {
    var r := NatToString(n);
    if n >= 10 {
      DigitsValueOfNatToString(n / 10);
      assert r[..|r| - 1] == NatToString(n / 10);
    }
  }
}
