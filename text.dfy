/**
 * Case-insensitive comparison as PCRE's `/i` flag performs it with its
 * default character tables: only the ASCII letters A-Z fold to a-z.
 */
module Text {

  /** The lower-case form of an ASCII upper-case letter; every other character is itself. */
  function Lower(c: char): (r: char)
    ensures 'A' <= c <= 'Z' ==> r as int == c as int + 32
    ensures !('A' <= c <= 'Z') ==> r == c
    ensures !('A' <= r <= 'Z')
  {
    if 'A' <= c <= 'Z' then (c as int + 32) as char else c
  }

  /** The string with every ASCII upper-case letter folded to lower case. */
  function LowerAscii(s: string): (r: string)
    ensures |r| == |s|
    ensures forall i :: 0 <= i < |s| ==> r[i] == Lower(s[i])
  {
    if s == [] then [] else [Lower(s[0])] + LowerAscii(s[1..])
  }

  /** `a` and `b` are equal up to ASCII case. */
  predicate EqualsIgnoreCase(a: string, b: string)
  {
    |a| == |b| && forall i :: 0 <= i < |a| ==> Lower(a[i]) == Lower(b[i])
  }

  /** `s` begins with `prefix`, up to ASCII case (a regex anchored with `^`). */
  predicate StartsWithIgnoreCase(s: string, prefix: string)
  {
    |prefix| <= |s| && EqualsIgnoreCase(s[..|prefix|], prefix)
  }

  /** Comparing up to case is the same as comparing the folded strings. */
  lemma EqualsIgnoreCaseIffFolded(a: string, b: string)
    ensures EqualsIgnoreCase(a, b) <==> LowerAscii(a) == LowerAscii(b)
  {
    if LowerAscii(a) == LowerAscii(b) {
      assert |a| == |b|;
      forall i | 0 <= i < |a| ensures Lower(a[i]) == Lower(b[i]) {
        assert LowerAscii(a)[i] == LowerAscii(b)[i];
      }
    }
  }

  /** A string without upper-case ASCII letters is its own folded form. */
  lemma FoldedIsFixed(s: string)
    requires forall i :: 0 <= i < |s| ==> !('A' <= s[i] <= 'Z')
    ensures LowerAscii(s) == s
  {
  }

  /** Comparing with a string that has no upper-case letters compares the folded form with it. */
  lemma EqualsIgnoreCaseLowerLiteral(s: string, lit: string)
    requires forall i :: 0 <= i < |lit| ==> !('A' <= lit[i] <= 'Z')
    ensures EqualsIgnoreCase(s, lit) <==> LowerAscii(s) == lit
  {
    FoldedIsFixed(lit);
    EqualsIgnoreCaseIffFolded(s, lit);
  }

  /** Testing a prefix up to case is testing the prefix of the folded string. */
  lemma StartsWithIgnoreCaseLowerLiteral(s: string, lit: string)
    requires forall i :: 0 <= i < |lit| ==> !('A' <= lit[i] <= 'Z')
    ensures StartsWithIgnoreCase(s, lit) <==> |lit| <= |s| && LowerAscii(s)[..|lit|] == lit
  {
    if |lit| <= |s| {
      EqualsIgnoreCaseLowerLiteral(s[..|lit|], lit);
      assert LowerAscii(s[..|lit|]) == LowerAscii(s)[..|lit|];
    }
  }
}
