/** The JavaScript string primitives the dropdown relies on: `trim`,
    `toLowerCase` (ASCII letters only) and `indexOf`. */
module JsString {

  /** ECMAScript WhiteSpace or LineTerminator: exactly the code points that
      `String.prototype.trim` strips from both ends. */
  predicate IsTrimmable(c: char) {
    var n := c as int;
    || n == 0x09 || n == 0x0A || n == 0x0B || n == 0x0C || n == 0x0D
    || n == 0x20 || n == 0xA0 || n == 0x1680
    || (0x2000 <= n <= 0x200A)
    || n == 0x2028 || n == 0x2029 || n == 0x202F || n == 0x205F
    || n == 0x3000 || n == 0xFEFF
  }

  /** Drops the leading trimmable characters. */
  function TrimStart(s: string): (r: string)
    ensures |r| <= |s| && r == s[|s| - |r|..]
    ensures forall i :: 0 <= i < |s| - |r| ==> IsTrimmable(s[i])
    ensures r == [] || !IsTrimmable(r[0])
  {
    if s != [] && IsTrimmable(s[0]) then TrimStart(s[1..]) else s
  }

  /** Drops the trailing trimmable characters. */
  function TrimEnd(s: string): (r: string)
    ensures |r| <= |s| && r == s[..|r|]
    ensures forall i :: |r| <= i < |s| ==> IsTrimmable(s[i])
    ensures r == [] || !IsTrimmable(r[|r| - 1])
  {
    if s != [] && IsTrimmable(s[|s| - 1]) then TrimEnd(s[..|s| - 1]) else s
  }

  /** `r` is `s` with a trimmable prefix of length `i` and a trimmable suffix removed. */
  predicate TrimmedAt(s: string, r: string, i: int) {
    && 0 <= i && i + |r| <= |s|
    && r == s[i..i + |r|]
    && (forall k :: 0 <= k < i ==> IsTrimmable(s[k]))
    && (forall k :: i + |r| <= k < |s| ==> IsTrimmable(s[k]))
  }

  /** `String.prototype.trim`. */
  function Trim(s: string): (r: string)
    ensures exists i :: TrimmedAt(s, r, i)
    ensures r == [] || (!IsTrimmable(r[0]) && !IsTrimmable(r[|r| - 1]))
  {
    var t := TrimStart(s);
    var r := TrimEnd(t);
    var i := |s| - |t|;
    assert r == s[i..i + |r|] by {
      assert t == s[i..];
      assert r == t[..|r|];
    }
    assert TrimmedAt(s, r, i);
    r
  }

  /** Trimming an already trimmed string changes nothing. */
  lemma TrimIdempotent(s: string)
    ensures Trim(Trim(s)) == Trim(s)
  {
    var t := Trim(s);
    var u := Trim(t);
    var i :| TrimmedAt(t, u, i);
    assert i == 0 && |u| == |t|;
  }

  /** A string without trimmable characters at either end is its own trimmed form. */
  lemma TrimNoEdgeSpace(s: string)
    requires s == [] || (!IsTrimmable(s[0]) && !IsTrimmable(s[|s| - 1]))
    ensures Trim(s) == s
  {
    assert TrimStart(s) == s;
    assert TrimEnd(s) == s;
  }

  /** The trimmed text is empty exactly when every character is trimmable. */
  lemma TrimEmptyIff(s: string)
    ensures Trim(s) == [] <==> forall k :: 0 <= k < |s| ==> IsTrimmable(s[k])
  {
    var r := Trim(s);
    var i :| TrimmedAt(s, r, i);
    if r != [] {
      assert r[0] == s[i];
    }
  }

  /** `toLowerCase` restricted to ASCII: `A`..`Z` map to `a`..`z`. */
  function LowerChar(c: char): char {
    if 'A' <= c <= 'Z' then (c as int + 32) as char else c
  }

  predicate IsUpper(c: char) {
    'A' <= c <= 'Z'
  }

  /** `String.prototype.toLowerCase`, character by character. */
  function ToLowerCase(s: string): (r: string)
    ensures |r| == |s|
    ensures forall i :: 0 <= i < |s| ==> r[i] == LowerChar(s[i])
    ensures forall i :: 0 <= i < |r| ==> !IsUpper(r[i])
  {
    if s == [] then [] else [LowerChar(s[0])] + ToLowerCase(s[1..])
  }

  /** Lower-casing twice is lower-casing once. */
  lemma ToLowerCaseIdempotent(s: string)
    ensures ToLowerCase(ToLowerCase(s)) == ToLowerCase(s)
  {
    var l := ToLowerCase(s);
    var ll := ToLowerCase(l);
    assert forall i :: 0 <= i < |l| ==> ll[i] == l[i] by {
      forall i | 0 <= i < |l|
        ensures ll[i] == l[i]
      {
        assert !IsUpper(l[i]);
      }
    }
  }

  /** A string without upper-case letters is its own lower-case form. */
  lemma ToLowerCaseNoUpper(s: string)
    requires forall i :: 0 <= i < |s| ==> !IsUpper(s[i])
    ensures ToLowerCase(s) == s
  {
  }

  /** `needle` occurs in `hay` starting at index `i`. */
  predicate MatchesAt(hay: string, needle: string, i: int) {
    0 <= i && i + |needle| <= |hay| && hay[i..i + |needle|] == needle
  }

  /** Reference meaning of substring containment. */
  predicate Contains(hay: string, needle: string) {
    exists i :: 0 <= i <= |hay| && MatchesAt(hay, needle, i)
  }

  /** `hay.indexOf(needle, from)`: the least match position at or after `from`, or -1. */
  function IndexOfFrom(hay: string, needle: string, from: nat): (r: int)
    ensures r == -1 || (from <= r && MatchesAt(hay, needle, r))
    ensures r == -1 ==> forall i :: from <= i ==> !MatchesAt(hay, needle, i)
    ensures forall i :: from <= i < r ==> !MatchesAt(hay, needle, i)
    decreases |hay| - from
  {
    if from + |needle| > |hay| then -1
    else if hay[from..from + |needle|] == needle then from
    else IndexOfFrom(hay, needle, from + 1)
  }

  /** `hay.indexOf(needle)`. */
  function IndexOf(hay: string, needle: string): (r: int)
    ensures r >= 0 <==> Contains(hay, needle)
    ensures r >= 0 ==> MatchesAt(hay, needle, r) && forall i :: 0 <= i < r ==> !MatchesAt(hay, needle, i)
  {
    IndexOfFrom(hay, needle, 0)
  }

  /** Every string contains the empty string (at index 0). */
  lemma ContainsEmpty(hay: string)
    ensures Contains(hay, "")
  {
    assert MatchesAt(hay, "", 0);
  }
}
