/** JavaScript's `String.prototype.trim`, which every server and the form apply to text fields. */
module Text {

  /** The characters `trim` strips: the WhiteSpace and LineTerminator code points
      of ECMAScript (sections 12.2 and 12.3 of ECMA-262). */
  predicate IsSpace(ch: char) {
    || ch == '\t' || ch == '\n' || ch == '\U{B}' || ch == '\U{C}' || ch == '\r' || ch == ' '
    || ch == '\U{A0}' || ch == '\U{1680}' || ('\U{2000}' <= ch <= '\U{200A}')
    || ch == '\U{2028}' || ch == '\U{2029}' || ch == '\U{202F}' || ch == '\U{205F}'
    || ch == '\U{3000}' || ch == '\U{FEFF}'
  }

  predicate AllSpace(s: string) {
    forall i :: 0 <= i < |s| ==> IsSpace(s[i])
  }

  /** `s` neither starts nor ends with whitespace. */
  predicate Clean(s: string) {
    s == [] || (!IsSpace(s[0]) && !IsSpace(s[|s| - 1]))
  }

  /** Drops leading whitespace: the result is the suffix of `s` after a run of spaces. */
  function TrimStart(s: string): (r: string)
    ensures |r| <= |s| && r == s[|s| - |r|..]
    ensures AllSpace(s[..|s| - |r|])
    ensures r == [] || !IsSpace(r[0])
  {
    if s != [] && IsSpace(s[0]) then TrimStart(s[1..]) else s
  }

  /** Drops trailing whitespace: the result is the prefix of `s` before a run of spaces. */
  function TrimEnd(s: string): (r: string)
    ensures |r| <= |s| && r == s[..|r|]
    ensures AllSpace(s[|r|..])
    ensures r == [] || !IsSpace(r[|r| - 1])
  {
    if s != [] && IsSpace(s[|s| - 1]) then TrimEnd(s[..|s| - 1]) else s
  }

  /** How many leading whitespace characters `trim` skips. */
  function Lead(s: string): (k: nat)
    ensures k <= |s| && AllSpace(s[..k])
  {
    |s| - |TrimStart(s)|
  }

  /** `s.trim()`: a string with no whitespace at either end, which is empty
      exactly when `s` holds nothing but whitespace. `TrimSlice` says which
      slice of `s` it is. */
  function Trim(s: string): (r: string)
    ensures Clean(r)
    ensures r == [] <==> AllSpace(s)
    ensures |r| <= |s|
  {
    var t := TrimStart(s);
    assert AllSpace(t) ==> t == [];
    assert s == s[..|s| - |t|] + t;
    assert AllSpace(t) ==> AllSpace(s);
    TrimEnd(t)
  }

  /** `trim` removes the leading and the trailing whitespace of `s` and nothing
      else: its result is the slice of `s` after the `Lead(s)` leading spaces,
      and only whitespace follows it. */
  lemma TrimSlice(s: string)
    ensures Lead(s) + |Trim(s)| <= |s|
    ensures Trim(s) == s[Lead(s)..Lead(s) + |Trim(s)|]
    ensures AllSpace(s[..Lead(s)]) && AllSpace(s[Lead(s) + |Trim(s)|..])
  {
    var t := TrimStart(s);
    var r := TrimEnd(t);
    assert r == Trim(s);
    SliceOfSuffix(s, t, r);
  }

  /** A prefix `r` of a suffix `t` of `s` is a slice of `s`, followed by the rest of `t`. */
  lemma SliceOfSuffix(s: string, t: string, r: string)
    requires |t| <= |s| && t == s[|s| - |t|..]
    requires |r| <= |t| && r == t[..|r|]
    ensures var k := |s| - |t|; r == s[k..k + |r|] && s[k + |r|..] == t[|r|..]
  {
  }

  /** A string with no whitespace at either end is left as it is. */
  lemma TrimClean(s: string)
    requires Clean(s)
    ensures Trim(s) == s
  {
  }

  /** Trimming twice is trimming once. */
  lemma TrimIdempotent(s: string)
    ensures Trim(Trim(s)) == Trim(s)
  {
    TrimClean(Trim(s));
  }
}
