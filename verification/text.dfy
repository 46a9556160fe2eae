/**
 Python's `str.strip()` with no argument, on strings as sequences of code
 points. Every stage of the pipeline trims its input with it before any
 emptiness check, so its exact meaning matters to the guards.
 */
module Text {

  /** Python's `str.isspace()` on one code point. */
  predicate IsSpace(c: char) {
    var n := c as int;
    || n == 0x20 || 0x09 <= n <= 0x0D || 0x1C <= n <= 0x1F
    || n == 0x85 || n == 0xA0 || n == 0x1680 || 0x2000 <= n <= 0x200A
    || n == 0x2028 || n == 0x2029 || n == 0x202F || n == 0x205F || n == 0x3000
  }

  predicate AllSpace(s: string) {
    forall i | 0 <= i < |s| :: IsSpace(s[i])
  }

  /** Neither starts nor ends with whitespace. */
  predicate Trimmed(s: string) {
    s == [] || (!IsSpace(s[0]) && !IsSpace(s[|s| - 1]))
  }

  /** Length of the longest all-whitespace prefix. */
  function LeadingSpaces(s: string): (k: nat)
    ensures k <= |s|
    ensures AllSpace(s[..k])
    ensures k < |s| ==> !IsSpace(s[k])
  {
    if |s| > 0 && IsSpace(s[0]) then
      var k' := LeadingSpaces(s[1..]);
      assert forall i | 0 < i < 1 + k' :: s[i] == s[1..][..k'][i - 1];
      1 + k'
    else 0
  }

  /** Length of the longest all-whitespace suffix. */
  function TrailingSpaces(s: string): (k: nat)
    ensures k <= |s|
    ensures AllSpace(s[|s| - k..])
    ensures k < |s| ==> !IsSpace(s[|s| - k - 1])
  {
    if |s| > 0 && IsSpace(s[|s| - 1]) then
      var init := s[..|s| - 1];
      var k' := TrailingSpaces(init);
      assert s[|s| - 1 - k'..] == init[|init| - k'..] + [s[|s| - 1]];
      1 + k'
    else 0
  }

  /**
   `s` with leading and trailing whitespace removed: a contiguous middle part
   of `s`, everything cut away on either side is whitespace, and the part kept
   neither starts nor ends with whitespace.
   */
  function Strip(s: string): (r: string)
    ensures Trimmed(r)
    ensures LeadingSpaces(s) + |r| <= |s|
    ensures r == s[LeadingSpaces(s)..LeadingSpaces(s) + |r|]
    ensures AllSpace(s[..LeadingSpaces(s)])
    ensures AllSpace(s[LeadingSpaces(s) + |r|..])
  {
    var a := LeadingSpaces(s);
    var rest := s[a..];
    var b := TrailingSpaces(rest);
    var r := rest[..|rest| - b];
    assert r == s[a..a + |r|];
    assert s[a + |r|..] == rest[|rest| - b..];
    assert r != [] ==> r[0] == s[a] && r[|r| - 1] == rest[|rest| - b - 1];
    r
  }

  /** Stripping leaves nothing exactly when the string is all whitespace. */
  lemma StripEmptyIffAllSpace(s: string)
    ensures Strip(s) == [] <==> AllSpace(s)
  {
    if Strip(s) == [] {
      assert s[..LeadingSpaces(s)] == s;
    }
  }

  /**
   Strip is characterised by its output: whenever `s` is whitespace, then a
   trimmed core, then whitespace, Strip returns exactly that core.
   */
  lemma StripOfPadded(p: string, core: string, q: string)
    requires AllSpace(p) && AllSpace(q) && Trimmed(core)
    ensures Strip(p + core + q) == core
  {
    var s := p + core + q;
    assert forall i | 0 <= i < |p| :: s[i] == p[i];
    assert forall i | 0 <= i < |core| :: s[|p| + i] == core[i];
    assert forall i | 0 <= i < |q| :: s[|p| + |core| + i] == q[i];
    if core == [] {
      StripEmptyIffAllSpace(s);
    } else {
      var a := LeadingSpaces(s);
      assert a == |p|;
      var r := Strip(s);
      assert a + |r| == |p| + |core|;
      assert r == s[|p|..|p| + |core|];
    }
  }

  /** A trimmed string is its own strip; in particular Strip is idempotent. */
  lemma StripIdempotent(s: string)
    ensures Strip(Strip(s)) == Strip(s)
  {
    StripOfPadded([], Strip(s), []);
    assert [] + Strip(s) + [] == Strip(s);
  }
}
