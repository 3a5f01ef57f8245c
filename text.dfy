/**
 * The string primitives the core relies on: `str::trim`, ASCII case
 * folding (standing in for `to_lowercase` / `to_uppercase`) and
 * `str::contains`.
 */
module Text {

  /** The Unicode White_Space property, which is what `str::trim` strips. */
  predicate IsWhitespace(c: char)
  {
    || ('\t' <= c <= '\r')
    || c == ' '
    || c == '\U{0085}'
    || c == '\U{00A0}'
    || c == '\U{1680}'
    || ('\U{2000}' <= c <= '\U{200A}')
    || c == '\U{2028}'
    || c == '\U{2029}'
    || c == '\U{202F}'
    || c == '\U{205F}'
    || c == '\U{3000}'
  }

  predicate IsBlank(s: string)
  {
    forall i | 0 <= i < |s| :: IsWhitespace(s[i])
  }

  /** `str::trim_start`: drops the leading white space and nothing else. */
  function TrimStart(s: string): (r: string)
    ensures |r| <= |s| && r == s[|s| - |r|..]
    ensures forall i | 0 <= i < |s| - |r| :: IsWhitespace(s[i])
    ensures r != [] ==> !IsWhitespace(r[0])
  {
    if s != [] && IsWhitespace(s[0]) then TrimStart(s[1..]) else s
  }

  /** `str::trim_end`: drops the trailing white space and nothing else. */
  function TrimEnd(s: string): (r: string)
    ensures |r| <= |s| && r == s[..|r|]
    ensures forall i | |r| <= i < |s| :: IsWhitespace(s[i])
    ensures r != [] ==> !IsWhitespace(r[|r| - 1])
  {
    if s != [] && IsWhitespace(s[|s| - 1]) then TrimEnd(s[..|s| - 1]) else s
  }

  /**
   * `str::trim`: the line without its white-space ends.  It is empty exactly
   * when the line is blank, and otherwise starts and ends with a character
   * that is not white space.
   */
  function Trim(s: string): (r: string)
    ensures |r| <= |s|
    ensures r == [] <==> IsBlank(s)
    ensures r != [] ==> !IsWhitespace(r[0]) && !IsWhitespace(r[|r| - 1])
    ensures exists a: nat, b: nat :: BlankOutside(s, r, a, b)
  {
    var t := TrimStart(s);
    assert t != [] ==> t[0] == s[|s| - |t|];
    TrimIsSlice(s, t, TrimEnd(t));
    TrimEnd(t)
  }

  /** `r` is the slice `s[a..b]` of `s`, and what lies outside it is white space. */
  predicate BlankOutside(s: string, r: string, a: nat, b: nat)
  {
    a <= b <= |s| && r == s[a..b] && IsBlank(s[..a]) && IsBlank(s[b..])
  }

  /** A white-space prefix cut off `s`, then a white-space suffix cut off the rest, leaves a slice with blank ends. */
  lemma TrimIsSlice(s: string, t: string, u: string)
    requires |t| <= |s| && t == s[|s| - |t|..]
    requires forall i | 0 <= i < |s| - |t| :: IsWhitespace(s[i])
    requires |u| <= |t| && u == t[..|u|]
    requires forall i | |u| <= i < |t| :: IsWhitespace(t[i])
    ensures exists a: nat, b: nat :: BlankOutside(s, u, a, b)
  {
    var a := |s| - |t|;
    var b := a + |u|;
    assert IsBlank(s[..a]) by {
      var p := s[..a];
      forall i | 0 <= i < |p| ensures IsWhitespace(p[i]) {
        assert p[i] == s[i];
      }
    }
    assert u == s[a..b] by {
      assert t[..|u|] == s[a..b];
    }
    assert IsBlank(s[b..]) by {
      forall i | 0 <= i < |s| - b ensures IsWhitespace(s[b..][i]) {
        assert s[b..][i] == t[|u| + i];
      }
    }
    assert BlankOutside(s, u, a, b);
  }

  function LowerChar(c: char): char
  {
    if 'A' <= c <= 'Z' then (c as int + 32) as char else c
  }

  function UpperChar(c: char): char
  {
    if 'a' <= c <= 'z' then (c as int - 32) as char else c
  }

  /** ASCII lower-casing, character by character. */
  function ToLower(s: string): (r: string)
    ensures |r| == |s|
  {
    seq(|s|, i requires 0 <= i < |s| => LowerChar(s[i]))
  }

  /** ASCII upper-casing, character by character. */
  function ToUpper(s: string): (r: string)
    ensures |r| == |s|
  {
    seq(|s|, i requires 0 <= i < |s| => UpperChar(s[i]))
  }

  predicate IsUpper(s: string)
  {
    forall i | 0 <= i < |s| :: !('a' <= s[i] <= 'z')
  }

  /** Upper-casing a string that has no lower-case letter changes nothing. */
  lemma ToUpperOfUpper(s: string)
    requires IsUpper(s)
    ensures ToUpper(s) == s
  {
    assert forall i | 0 <= i < |s| :: ToUpper(s)[i] == s[i];
  }

  /** Upper-casing undoes lower-casing on a string with no lower-case letter. */
  lemma UpperOfLower(s: string)
    requires IsUpper(s)
    ensures ToUpper(ToLower(s)) == s
  {
    assert forall i | 0 <= i < |s| :: ToUpper(ToLower(s))[i] == s[i];
  }

  /** Upper-casing is idempotent. */
  lemma ToUpperIdempotent(s: string)
    ensures ToUpper(ToUpper(s)) == ToUpper(s)
  {
    assert forall i | 0 <= i < |s| :: ToUpper(ToUpper(s))[i] == ToUpper(s)[i];
  }

  predicate StartsWith(s: string, prefix: string)
  {
    |prefix| <= |s| && s[..|prefix|] == prefix
  }

  /** `needle` occurs in `haystack` starting at index `k`. */
  predicate OccursAt(haystack: string, needle: string, k: nat)
  {
    k + |needle| <= |haystack| && haystack[k..k + |needle|] == needle
  }

  /** `str::contains`: the needle occurs at some position of the haystack. */
  predicate Contains(haystack: string, needle: string)
    ensures Contains(haystack, needle) <==> exists k: nat :: OccursAt(haystack, needle, k)
    decreases |haystack|
  {
    assert StartsWith(haystack, needle) <==> OccursAt(haystack, needle, 0);
    assert haystack != [] ==> forall k: nat :: OccursAt(haystack[1..], needle, k) <==> OccursAt(haystack, needle, k + 1) by {
      if haystack != [] {
        forall k: nat ensures OccursAt(haystack[1..], needle, k) <==> OccursAt(haystack, needle, k + 1) {
          if k + 1 + |needle| <= |haystack| {
            assert haystack[1..][k..k + |needle|] == haystack[k + 1..k + 1 + |needle|];
          }
        }
      }
    }
    assert (exists k: nat :: OccursAt(haystack, needle, k)) ==>
      OccursAt(haystack, needle, 0) || (haystack != [] && exists k: nat :: OccursAt(haystack[1..], needle, k)) by {
      if k: nat :| OccursAt(haystack, needle, k) {
        if k > 0 {
          assert OccursAt(haystack[1..], needle, k - 1);
        }
      }
    }
    StartsWith(haystack, needle) || (haystack != [] && Contains(haystack[1..], needle))
  }

  /** An occurrence in a suffix is an occurrence in the whole string. */
  lemma {:induction false} ContainsSuffix(s: string, k: nat, needle: string)
    requires k <= |s| && Contains(s[k..], needle)
    ensures Contains(s, needle)
    decreases k
  {
    if k > 0 {
      assert s[1..][k - 1..] == s[k..];
      ContainsSuffix(s[1..], k - 1, needle);
    }
  }
}
