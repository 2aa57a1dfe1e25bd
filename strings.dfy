/**
 * The JavaScript string operations the pages and the request layer use, on `seq<char>`:
 * `/^\d+$/`, `toLowerCase`/`toUpperCase` and `trim` (ASCII only), `includes`, `startsWith`,
 * `slice(-1)`, `split`, `join` and `length` (in UTF-16 code units).
 */
module Strings {
  import opened Wrappers

  /** A `string | null` used as a condition: null and "" are falsy. */
  predicate Truthy(v: Option<string>)
  {
    v.Some? && v.value != ""
  }

  /**
   * JavaScript's `length`, which zod's `min` compares: UTF-16 code units. A character outside
   * the Basic Multilingual Plane (code point 0x10000 or above) is a surrogate pair, two units.
   */
  function Utf16Length(s: string): (n: nat)
    ensures |s| <= n <= 2 * |s|
    ensures n == |s| <==> forall i :: 0 <= i < |s| ==> (s[i] as int) < 0x1_0000
  {
    if s == [] then 0
    else
      var rest := Utf16Length(s[1..]);
      assert forall i :: 1 <= i < |s| ==> s[i] == s[1..][i - 1];
      (if (s[0] as int) < 0x1_0000 then 1 else 2) + rest
  }

  predicate IsDigit(c: char)
  {
    '0' <= c <= '9'
  }

  /** `/^\d+$/.test(s)`: at least one character, and every character an ASCII digit. */
  predicate AllDigits(s: string)
  {
    |s| > 0 && forall i :: 0 <= i < |s| ==> IsDigit(s[i])
  }

  function LowerChar(c: char): (d: char)
  {
    if 'A' <= c <= 'Z' then (c as int + 32) as char else c
  }

  function UpperChar(c: char): (d: char)
  {
    if 'a' <= c <= 'z' then (c as int - 32) as char else c
  }

  /** `s.toLowerCase()` for ASCII letters: every character mapped, the length kept. */
  function ToLower(s: string): (r: string)
    ensures |r| == |s| && forall i :: 0 <= i < |s| ==> r[i] == LowerChar(s[i])
  {
    if s == [] then [] else [LowerChar(s[0])] + ToLower(s[1..])
  }

  /** `s.toUpperCase()` for ASCII letters. */
  function ToUpper(s: string): (r: string)
    ensures |r| == |s| && forall i :: 0 <= i < |s| ==> r[i] == UpperChar(s[i])
  {
    if s == [] then [] else [UpperChar(s[0])] + ToUpper(s[1..])
  }

  /** Lowercasing leaves no upper-case ASCII letter and is idempotent. */
  lemma ToLowerIdempotent(s: string)
    ensures forall i :: 0 <= i < |s| ==> !('A' <= ToLower(s)[i] <= 'Z')
    ensures ToLower(ToLower(s)) == ToLower(s)
  {
  }

  /** `p` occurs in `s` starting at position `i`. */
  predicate OccursAt(s: string, i: int, p: string)
  {
    0 <= i <= |s| - |p| && s[i..i + |p|] == p
  }

  /** `s.startsWith(p)`. */
  predicate StartsWith(s: string, p: string)
  {
    OccursAt(s, 0, p)
  }

  /** `hay.includes(needle)`: `needle` occurs in `hay` at some position. */
  predicate Contains(hay: string, needle: string)
  {
    exists i :: 0 <= i <= |hay| && OccursAt(hay, i, needle)
  }

  /** Every string includes the empty string, and includes itself. */
  lemma ContainsTrivial(s: string)
    ensures Contains(s, "")
    ensures Contains(s, s)
  {
    assert OccursAt(s, 0, "");
    assert OccursAt(s, 0, s);
  }

  /** `s.slice(-1)`: the last character, or "" for the empty string. */
  function LastChar(s: string): (r: string)
    ensures |s| > 0 ==> r == [s[|s| - 1]]
    ensures |s| == 0 ==> r == ""
  {
    if |s| == 0 then "" else s[|s| - 1..]
  }

  /** `s.indexOf(sep)` for a non-empty separator: the first position where `sep` starts, or -1. */
  function IndexOf(s: string, sep: string): (i: int)
    requires |sep| > 0
    ensures i == -1 || OccursAt(s, i, sep)
    ensures i >= 0 ==> forall m :: 0 <= m < i ==> !OccursAt(s, m, sep)
    ensures i == -1 ==> !Contains(s, sep)
  {
    IndexFrom(s, sep, 0)
  }

  /** The first position at or after `k` where `sep` starts, or -1. */
  function IndexFrom(s: string, sep: string, k: nat): (i: int)
    requires |sep| > 0 && k <= |s|
    ensures i == -1 || (k <= i && OccursAt(s, i, sep))
    ensures i >= 0 ==> forall m :: k <= m < i ==> !OccursAt(s, m, sep)
    ensures i == -1 ==> forall m :: k <= m ==> !OccursAt(s, m, sep)
    decreases |s| - k
  {
    if |s| - k < |sep| then -1
    else if OccursAt(s, k, sep) then k
    else IndexFrom(s, sep, k + 1)
  }

  /** `s.split(sep)` for a non-empty separator (`"".split(sep)` is `[""]`). */
  function Split(s: string, sep: string): (parts: seq<string>)
    requires |sep| > 0
    ensures |parts| > 0
    decreases |s|
  {
    var i := IndexOf(s, sep);
    if i == -1 then [s] else [s[..i]] + Split(s[i + |sep|..], sep)
  }

  /** `parts.join(sep)`. */
  function Join(parts: seq<string>, sep: string): (s: string)
  {
    if |parts| == 0 then ""
    else if |parts| == 1 then parts[0]
    else parts[0] + sep + Join(parts[1..], sep)
  }

  /** Splitting and joining with the same separator gives the string back, and no part holds the separator. */
  lemma {:induction false} SplitJoin(s: string, sep: string)
    requires |sep| > 0
    ensures Join(Split(s, sep), sep) == s
    ensures forall k :: 0 <= k < |Split(s, sep)| ==> !Contains(Split(s, sep)[k], sep)
    decreases |s|
  {
    var i := IndexOf(s, sep);
    if i != -1 {
      var rest := s[i + |sep|..];
      SplitJoin(rest, sep);
      assert s == s[..i] + sep + rest;
      PrefixBeforeSeparator(s, sep, i);
    }
  }

  /** The part before the first separator does not contain the separator. */
  lemma PrefixBeforeSeparator(s: string, sep: string, i: int)
    requires |sep| > 0 && 0 <= i <= |s|
    requires forall m :: 0 <= m < i ==> !OccursAt(s, m, sep)
    ensures !Contains(s[..i], sep)
  {
    forall m | OccursAt(s[..i], m, sep) ensures false {
      assert s[..i][m..m + |sep|] == s[m..m + |sep|];
      assert OccursAt(s, m, sep);
    }
  }

  predicate IsSpace(c: char)
  {
    c == ' ' || c == '\t' || c == '\n' || c == '\r' || c == '\U{000B}' || c == '\U{000C}'
  }

  /** Drops leading ASCII white space. */
  function TrimStart(s: string): (r: string)
    ensures |r| <= |s| && r == s[|s| - |r|..]
    ensures r == [] || !IsSpace(r[0])
    ensures forall i :: 0 <= i < |s| - |r| ==> IsSpace(s[i])
  {
    if s != [] && IsSpace(s[0]) then TrimStart(s[1..]) else s
  }

  /** Drops trailing ASCII white space. */
  function TrimEnd(s: string): (r: string)
    ensures |r| <= |s| && r == s[..|r|]
    ensures r == [] || !IsSpace(r[|r| - 1])
    ensures forall i :: |r| <= i < |s| ==> IsSpace(s[i])
  {
    if s != [] && IsSpace(s[|s| - 1]) then TrimEnd(s[..|s| - 1]) else s
  }

  /** `s.trim()`. */
  function Trim(s: string): (r: string)
  {
    TrimEnd(TrimStart(s))
  }

  /** `s.trim() === ""` exactly when every character of `s` is white space. */
  lemma TrimEmpty(s: string)
    ensures Trim(s) == "" <==> forall i :: 0 <= i < |s| ==> IsSpace(s[i])
  {
    var t := TrimStart(s);
    if !forall i :: 0 <= i < |s| ==> IsSpace(s[i]) {
      var i :| 0 <= i < |s| && !IsSpace(s[i]);
      assert t != [] && !IsSpace(t[0]);
    }
  }
}
