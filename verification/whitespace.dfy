/**
 * Python's `str.strip()` with no argument: it removes leading and trailing
 * characters for which `str.isspace()` holds. The set of such characters is
 * fixed by the Unicode database Python ships; it is written out here.
 */
module Whitespace {

  /**
   * The characters Python's `str.isspace()` accepts: the ASCII controls
   * TAB, LF, VT, FF, CR and the four information separators, SPACE, NEL,
   * NO-BREAK SPACE, OGHAM SPACE MARK, the EN QUAD..HAIR SPACE block, the line
   * and paragraph separators, NARROW NO-BREAK SPACE, MEDIUM MATHEMATICAL
   * SPACE and IDEOGRAPHIC SPACE.
   */
  predicate IsSpace(c: char) {
    var n := c as int;
    || 0x09 <= n <= 0x0D
    || 0x1C <= n <= 0x20
    || n == 0x85 || n == 0xA0 || n == 0x1680
    || 0x2000 <= n <= 0x200A
    || n == 0x2028 || n == 0x2029 || n == 0x202F || n == 0x205F || n == 0x3000
  }

  /** Every character of `s` is whitespace (vacuously so for the empty string). */
  predicate AllSpace(s: string) {
    forall i :: 0 <= i < |s| ==> IsSpace(s[i])
  }

  /** `str.lstrip()`: drops the longest all-whitespace prefix. */
  function TrimLeft(s: string): (r: string)
    ensures |r| <= |s| && r == s[|s| - |r|..]
    ensures AllSpace(s[..|s| - |r|])
    ensures |r| > 0 ==> !IsSpace(r[0])
  {
    if |s| > 0 && IsSpace(s[0]) then TrimLeft(s[1..]) else s
  }

  /** `str.rstrip()`: drops the longest all-whitespace suffix. */
  function TrimRight(s: string): (r: string)
    ensures |r| <= |s| && r == s[..|r|]
    ensures AllSpace(s[|r|..])
    ensures |r| > 0 ==> !IsSpace(r[|r| - 1])
  {
    if |s| > 0 && IsSpace(s[|s| - 1]) then TrimRight(s[..|s| - 1]) else s
  }

  /** `str.strip()`. */
  function Strip(s: string): (r: string)
    ensures |r| <= |s|
    ensures |r| > 0 ==> !IsSpace(r[0]) && !IsSpace(r[|r| - 1])
  {
    TrimRight(TrimLeft(s))
  }

  /**
   * `Strip` cuts `s` into three consecutive pieces: an all-whitespace prefix,
   * the result, and an all-whitespace suffix.
   */
  lemma StripIsInfix(s: string)
    ensures exists i, j :: 0 <= i <= j <= |s| && Strip(s) == s[i..j] && AllSpace(s[..i]) && AllSpace(s[j..])
  {
    var l := TrimLeft(s);
    var i := |s| - |l|;
    var j := i + |TrimRight(l)|;
    assert Strip(s) == s[i..j];
    assert s[j..] == l[|TrimRight(l)|..];
  }

  /** The stripped string is empty exactly when every character is whitespace. */
  lemma {:induction false} StripEmptyIffAllSpace(s: string)
    ensures |Strip(s)| == 0 <==> AllSpace(s)
  {
    var l := TrimLeft(s);
    if AllSpace(s) {
      AllSpaceTrimsToNothing(s);
    } else {
      var k :| 0 <= k < |s| && !IsSpace(s[k]);
      // The left trim stops at or before `k`, so it leaves a non-whitespace
      // first character, which the right trim cannot remove either.
      assert k >= |s| - |l| by {
        assert forall i :: 0 <= i < |s| - |l| ==> s[..|s| - |l|][i] == s[i];
      }
      assert |l| > 0 && !IsSpace(l[0]);
    }
  }

  lemma {:induction false} AllSpaceTrimsToNothing(s: string)
    requires AllSpace(s)
    ensures |TrimLeft(s)| == 0
    decreases |s|
  {
    if |s| > 0 {
      AllSpaceTrimsToNothing(s[1..]);
    }
  }
}
