/**
 * Python's `uuid.UUID(text)` (the check every service and router makes on an
 * id string) and `str(uuid)` (how the server writes an id back out).
 */
module Uuids {
  import opened Wrappers
  import opened Strings

  predicate IsLowerHex(c: char) {
    '0' <= c <= '9' || 'a' <= c <= 'f'
  }

  predicate IsHexDigit(c: char) {
    IsLowerHex(c) || 'A' <= c <= 'F'
  }

  /** A UUID, kept as the 32 lower-case hexadecimal digits of its 128-bit value. */
  type Uuid = s: string | |s| == 32 && forall i :: 0 <= i < |s| ==> IsLowerHex(s[i])
    witness "00000000000000000000000000000000"

  function ToLower(c: char): (r: char)
    ensures IsHexDigit(c) ==> IsLowerHex(r)
    ensures IsLowerHex(c) ==> r == c
  {
    if 'A' <= c <= 'Z' then (c as int + 32) as char else c
  }

  function LowerHex(s: string): (r: string)
    requires forall i :: 0 <= i < |s| ==> IsHexDigit(s[i])
    ensures |r| == |s| && forall i :: 0 <= i < |r| ==> IsLowerHex(r[i]) && r[i] == ToLower(s[i])
  {
    if s == [] then [] else [ToLower(s[0])] + LowerHex(s[1..])
  }

  /** `str(u)`: the 8-4-4-4-12 hyphenated lower-case form. */
  function ToString(u: Uuid): string {
    u[..8] + "-" + u[8..12] + "-" + u[12..16] + "-" + u[16..20] + "-" + u[20..]
  }

  /**
   * `uuid.UUID(s)`: drop every "urn:" and "uuid:", strip braces from both
   * ends, drop every hyphen, then demand exactly 32 hexadecimal digits.
   * `None` stands for the ValueError Python raises.
   */
  function Parse(s: string): (r: Option<Uuid>)
    ensures r.Some? ==> |RemoveChar(Strip(RemoveAll(RemoveAll(s, "urn:"), "uuid:"), {'{', '}'}), '-')| == 32
  {
    var h := RemoveChar(Strip(RemoveAll(RemoveAll(s, "urn:"), "uuid:"), {'{', '}'}), '-');
    if |h| == 32 && forall i :: 0 <= i < |h| ==> IsHexDigit(h[i]) then Some(LowerHex(h)) else None
  }

  /** `str(u)` is accepted by `uuid.UUID` and denotes `u` again. */
  lemma ParseToString(u: Uuid)
    ensures Parse(ToString(u)) == Some(u)
  {
    CleanedToString(u);
    LowerHexOfLower(u);
  }

  /** The clean-up steps of `uuid.UUID` take `str(u)` back to the 32 digits of `u`. */
  lemma CleanedToString(u: Uuid)
    ensures RemoveChar(Strip(RemoveAll(RemoveAll(ToString(u), "urn:"), "uuid:"), {'{', '}'}), '-') == u
  {
    var s := ToString(u);
    ToStringShape(u);
    RemoveAllAbsent(s, "urn:", ':');
    RemoveAllAbsent(s, "uuid:", ':');
    StripBracesAbsent(s, u);
  }

  lemma LowerHexOfLower(u: Uuid)
    ensures forall i :: 0 <= i < |u| ==> IsHexDigit(u[i])
    ensures LowerHex(u) == u
  {
    assert forall i :: 0 <= i < |u| ==> IsHexDigit(u[i]);
    var r := LowerHex(u);
    assert forall i :: 0 <= i < |u| ==> r[i] == u[i];
  }

  /** A string that starts and ends with hexadecimal digits has no braces to strip. */
  lemma StripBracesAbsent(s: string, u: Uuid)
    requires |s| > 0 && s[0] == u[0] && s[|s| - 1] == u[31]
    ensures Strip(s, {'{', '}'}) == s
  {
    assert IsLowerHex(u[0]) && IsLowerHex(u[31]);
    assert s[0] !in {'{', '}'} && s[|s| - 1] !in {'{', '}'};
    assert StripStart(s, {'{', '}'}) == s;
    assert StripEnd(s, {'{', '}'}) == s;
  }

  /** `str(u)` holds no ':' and no brace at either end, and removing its hyphens gives `u`. */
  lemma ToStringShape(u: Uuid)
    ensures var s := ToString(u);
      ':' !in s && s[0] == u[0] && s[|s| - 1] == u[31] && RemoveChar(s, '-') == u
  {
    ToStringNoColon(u);
    ToStringDehyphenated(u);
  }

  lemma ToStringNoColon(u: Uuid)
    ensures ':' !in ToString(u)
  {
    var s := ToString(u);
    forall i | 0 <= i < |s|
      ensures s[i] != ':'
    {
      if i < 8 { assert s[i] == u[i]; }
      else if 8 < i < 13 { assert s[i] == u[i - 1]; }
      else if 13 < i < 18 { assert s[i] == u[i - 2]; }
      else if 18 < i < 23 { assert s[i] == u[i - 3]; }
      else if 23 < i { assert s[i] == u[i - 4]; }
    }
  }

  lemma ToStringDehyphenated(u: Uuid)
    ensures RemoveChar(ToString(u), '-') == u
  {
    var p1, p2, p3, p4, p5 := u[..8], u[8..12], u[12..16], u[16..20], u[20..];
    assert '-' !in u;
    var a2 := p1 + "-" + p2;
    var a3 := a2 + "-" + p3;
    var a4 := a3 + "-" + p4;
    assert a4 + "-" + p5 == ToString(u);
    RemoveCharAbsent(p1, '-');
    RemoveHyphenBefore(p1, p2);
    RemoveHyphenBefore(a2, p3);
    RemoveHyphenBefore(a3, p4);
    RemoveHyphenBefore(a4, p5);
    assert p1 + p2 + p3 + p4 + p5 == u;
  }

  /** Removing the hyphens of `x + "-" + y`, where `y` has none, leaves those of `x` removed and `y`. */
  lemma RemoveHyphenBefore(x: string, y: string)
    requires '-' !in y
    ensures RemoveChar(x + "-" + y, '-') == RemoveChar(x, '-') + y
  {
    RemoveHyphen(x, y);
    RemoveCharAbsent(y, '-');
  }

  lemma RemoveHyphen(x: string, y: string)
    ensures RemoveChar(x + "-" + y, '-') == RemoveChar(x, '-') + RemoveChar(y, '-')
  {
    var a := x + "-";
    RemoveCharAppend(a, y, '-');
    RemoveCharAppend(x, "-", '-');
    assert RemoveChar("-", '-') == [] by {
      assert "-"[1..] == [];
      assert RemoveChar([], '-') == [];
    }
    assert RemoveChar(a, '-') == RemoveChar(x, '-');
  }

  /** Two different ids are written differently. */
  lemma ToStringInjective(u: Uuid, v: Uuid)
    requires ToString(u) == ToString(v)
    ensures u == v
  {
    ParseToString(u);
    ParseToString(v);
  }
}
