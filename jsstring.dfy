/**
 * The few JavaScript string operations the side panel relies on:
 * `String.prototype.trim`, `indexOf` with a string pattern, and
 * `replace` with a string pattern (which replaces only the first occurrence).
 */
module JsString {

  /**
   * The characters `trim` removes: the ECMAScript WhiteSpace code points
   * (tab, vertical tab, form feed, space, no-break space, byte order mark and
   * every space separator of category Zs) and the LineTerminator code points.
   */
  predicate IsJsWhitespace(c: char) {
    || '\t' <= c <= '\r'                      // tab, line feed, vertical tab, form feed, carriage return
    || c == ' ' || c == '\U{00A0}' || c == '\U{1680}'
    || '\U{2000}' <= c <= '\U{200A}'
    || c == '\U{2028}' || c == '\U{2029}'      // line and paragraph separators
    || c == '\U{202F}' || c == '\U{205F}' || c == '\U{3000}'
    || c == '\U{FEFF}'                         // byte order mark
  }

  predicate AllWhitespace(s: string) {
    forall i :: 0 <= i < |s| ==> IsJsWhitespace(s[i])
  }

  /** Drops leading whitespace: the result is a suffix of `s` and only whitespace was dropped. */
  function TrimStart(s: string): (r: string)
    ensures |r| <= |s| && r == s[|s| - |r|..]
    ensures forall i :: 0 <= i < |s| - |r| ==> IsJsWhitespace(s[i])
    ensures r != [] ==> !IsJsWhitespace(r[0])
  {
    if s != [] && IsJsWhitespace(s[0]) then
      var r := TrimStart(s[1..]);
      assert forall i :: 1 <= i < |s| ==> s[1..][i - 1] == s[i];
      r
    else s
  }

  /** Drops trailing whitespace: the result is a prefix of `s` and only whitespace was dropped. */
  function TrimEnd(s: string): (r: string)
    ensures |r| <= |s| && r == s[..|r|]
    ensures forall i :: |r| <= i < |s| ==> IsJsWhitespace(s[i])
    ensures r != [] ==> !IsJsWhitespace(r[|r| - 1])
  {
    if s != [] && IsJsWhitespace(s[|s| - 1]) then
      var init := s[..|s| - 1];
      var r := TrimEnd(init);
      assert init[..|r|] == s[..|r|];
      assert forall i :: 0 <= i < |init| ==> init[i] == s[i];
      r
    else s
  }

  /**
   * `s.trim()`: the contiguous part of `s` that starts after its leading
   * whitespace, with only whitespace before and after it.
   */
  function Trim(s: string): (r: string)
    ensures var a := |s| - |TrimStart(s)|;
            a + |r| <= |s| && r == s[a..a + |r|]
            && (forall i :: 0 <= i < a ==> IsJsWhitespace(s[i]))
            && (forall i :: a + |r| <= i < |s| ==> IsJsWhitespace(s[i]))
    ensures r != [] ==> !IsJsWhitespace(r[0]) && !IsJsWhitespace(r[|r| - 1])
  {
    var t := TrimStart(s);
    var r := TrimEnd(t);
    PrefixOfSuffix(s, t, r);
    r
  }

  /**
   * A prefix `r` of a suffix `t` of `s` is an inner slice of `s`; what follows
   * it in `s` is what follows it in `t`, and it starts where `t` starts.
   */
  lemma PrefixOfSuffix(s: string, t: string, r: string)
    requires |t| <= |s| && t == s[|s| - |t|..]
    requires |r| <= |t| && r == t[..|r|]
    requires forall i :: |r| <= i < |t| ==> IsJsWhitespace(t[i])
    requires t != [] ==> !IsJsWhitespace(t[0])
    ensures var a := |s| - |t|;
            r == s[a..a + |r|]
            && (forall i :: a + |r| <= i < |s| ==> IsJsWhitespace(s[i]))
            && (r != [] ==> !IsJsWhitespace(r[0]))
  {
    var a := |s| - |t|;
    forall i | a + |r| <= i < |s| ensures IsJsWhitespace(s[i]) {
      assert s[i] == t[i - a];
    }
    if r != [] {
      assert r[0] == t[0];
    }
  }

  /** A string trims to empty exactly when it is made only of whitespace. */
  lemma {:induction false} TrimEmptyIff(s: string)
    ensures Trim(s) == "" <==> AllWhitespace(s)
  {
    var t := TrimStart(s);
    assert t != [] ==> t[0] == s[|s| - |t|];
    if Trim(s) == "" {
      assert t == [];
    }
  }

  /** Trimming twice trims nothing more: a saved, trimmed URL is stable under another save. */
  lemma TrimIdempotent(s: string)
    ensures Trim(Trim(s)) == Trim(s)
  {
    var r := Trim(s);
    assert TrimStart(r) == r;
    assert TrimEnd(r) == r;
  }

  /** True when `pat` occurs in `s` starting at index `j`. */
  predicate OccursAt(s: string, pat: string, j: int) {
    0 <= j && j + |pat| <= |s| && s[j..j + |pat|] == pat
  }

  function IndexOfFrom(s: string, pat: string, from: nat): (r: int)
    requires from <= |s| + 1
    ensures r == -1 || from <= r
    ensures r >= 0 ==> OccursAt(s, pat, r) && forall j :: from <= j < r ==> !OccursAt(s, pat, j)
    ensures r == -1 ==> forall j :: from <= j ==> !OccursAt(s, pat, j)
    decreases |s| + 1 - from
  {
    if from + |pat| > |s| then -1
    else if OccursAt(s, pat, from) then from
    else IndexOfFrom(s, pat, from + 1)
  }

  /** `s.indexOf(pat)`: the first position where `pat` occurs, or -1. */
  function IndexOf(s: string, pat: string): (r: int)
    ensures r >= 0 ==> OccursAt(s, pat, r) && forall j :: 0 <= j < r ==> !OccursAt(s, pat, j)
    ensures r < 0 ==> r == -1 && forall j :: !OccursAt(s, pat, j)
  {
    IndexOfFrom(s, pat, 0)
  }

  /**
   * `s.replace(pat, "")` for a string pattern: deletes the first occurrence of
   * `pat` only, keeping the text before and after it in order.
   */
  function RemoveFirst(s: string, pat: string): (r: string)
    ensures IndexOf(s, pat) < 0 ==> r == s
    ensures var i := IndexOf(s, pat);
            i >= 0 ==> |r| == |s| - |pat| && s == r[..i] + pat + r[i..]
  {
    var i := IndexOf(s, pat);
    if i < 0 then s
    else
      var r := s[..i] + s[i + |pat|..];
      assert r[..i] == s[..i];
      assert r[i..] == s[i + |pat|..];
      assert s == s[..i] + s[i..i + |pat|] + s[i + |pat|..];
      r
  }

  /** A leading `pat` is the first occurrence, so `replace` strips exactly that prefix. */
  lemma RemoveFirstOfPrefixed(pat: string, rest: string)
    ensures RemoveFirst(pat + rest, pat) == rest
  {
    assert OccursAt(pat + rest, pat, 0);
    assert (pat + rest)[|pat|..] == rest;
  }
}
