/** Python's `str.strip()` with no argument: it removes, from both ends,
    every character that Python's `str.isspace` accepts. */
module Text {

  /** The characters Python treats as whitespace. */
  predicate IsSpace(c: char)
  {
    || '\U{0009}' <= c <= '\U{000D}'
    || '\U{001C}' <= c <= '\U{0020}'
    || c == '\U{0085}' || c == '\U{00A0}' || c == '\U{1680}'
    || '\U{2000}' <= c <= '\U{200A}'
    || c == '\U{2028}' || c == '\U{2029}' || c == '\U{202F}' || c == '\U{205F}' || c == '\U{3000}'
  }

  /** Empty, or made of whitespace only. */
  predicate IsBlank(s: string)
  {
    forall k :: 0 <= k < |s| ==> IsSpace(s[k])
  }

  /** Neither starts nor ends with whitespace (the empty text included). */
  predicate IsTrimmed(s: string)
  {
    s == [] || (!IsSpace(s[0]) && !IsSpace(s[|s| - 1]))
  }

  /** The number of whitespace characters at the start of `s`. */
  function LeadCount(s: string): (n: nat)
    ensures n <= |s|
    ensures forall k :: 0 <= k < n ==> IsSpace(s[k])
    ensures n < |s| ==> !IsSpace(s[n])
  {
    if s == [] || !IsSpace(s[0]) then 0
    else
      var n := 1 + LeadCount(s[1..]);
      assert forall k :: 1 <= k < n ==> s[k] == s[1..][k - 1];
      n
  }

  /** The index at which the whitespace at the end of `s` begins. */
  function TrailStart(s: string): (n: nat)
    ensures n <= |s|
    ensures forall k :: n <= k < |s| ==> IsSpace(s[k])
    ensures n > 0 ==> !IsSpace(s[n - 1])
  {
    if s == [] || !IsSpace(s[|s| - 1]) then |s|
    else
      var n := TrailStart(s[..|s| - 1]);
      assert forall k :: n <= k < |s| - 1 ==> s[k] == s[..|s| - 1][k];
      n
  }

  /** `s.strip()`: what lies between the leading and the trailing whitespace. */
  function Strip(s: string): (r: string)
    ensures LeadCount(s) + |r| <= |s|
    ensures r == s[LeadCount(s)..LeadCount(s) + |r|]
    ensures forall k :: LeadCount(s) + |r| <= k < |s| ==> IsSpace(s[k])
    ensures r == [] <==> IsBlank(s)
    ensures IsTrimmed(r)
  {
    var i, j := LeadCount(s), TrailStart(s);
    if j <= i then [] else s[i..j]
  }

  /** Stripping recovers a trimmed text from any whitespace padding around it;
      together with the contract of Strip this determines Strip completely. */
  lemma StripRemovesPadding(p: string, core: string, q: string)
    requires IsBlank(p) && IsBlank(q) && IsTrimmed(core)
    ensures Strip(p + core + q) == core
  {
    var t := p + core + q;
    var r := Strip(t);
    assert forall k :: 0 <= k < |p| ==> t[k] == p[k];
    assert forall k :: |p| + |core| <= k < |t| ==> t[k] == q[k - |p| - |core|];
    if core == [] {
      assert IsBlank(t);
    } else {
      assert t[|p|] == core[0];
      assert LeadCount(t) == |p|;
      assert t[|p| + |core| - 1] == core[|core| - 1];
      assert |core| <= |r|;
      assert r[|r| - 1] == t[|p| + |r| - 1];
      assert |r| <= |core|;
      assert r == t[|p|..|p| + |core|] == core;
    }
  }

  /** Stripping twice is stripping once. */
  lemma StripIdempotent(s: string)
    ensures Strip(Strip(s)) == Strip(s)
  {
  }
}
