/**
 * Ordinal, case-insensitive string comparison, as used for the command-set
 * GUIDs (`StringComparison.OrdinalIgnoreCase`) and for MSBuild property names.
 * Each character is mapped to its upper-case form and the mapped strings are
 * compared character by character.
 */
module IgnoreCase {

  /** Upper-case mapping of one character (ASCII letters only). */
  function Upper(c: char): (u: char)
    ensures 'a' <= c <= 'z' ==> u as int == c as int - 32
    ensures !('a' <= c <= 'z') ==> u == c
  {
    if 'a' <= c <= 'z' then (c as int - 32) as char else c
  }

  /** The upper-cased form of a string. */
  function FoldCase(s: string): (r: string)
    ensures |r| == |s|
    ensures forall i :: 0 <= i < |s| ==> r[i] == Upper(s[i])
  {
    if s == [] then [] else [Upper(s[0])] + FoldCase(s[1..])
  }

  /** `a.Equals(b, StringComparison.OrdinalIgnoreCase)`, character by character. */
  predicate EqualsIgnoreCase(a: string, b: string)
  {
    |a| == |b| && (a == [] || (Upper(a[0]) == Upper(b[0]) && EqualsIgnoreCase(a[1..], b[1..])))
  }

  /** Comparing character by character is the same as comparing the folded strings. */
  lemma {:induction false} EqualsIgnoreCaseIsFoldedEquality(a: string, b: string)
    ensures EqualsIgnoreCase(a, b) <==> FoldCase(a) == FoldCase(b)
  {
    if |a| == |b| && a != [] {
      EqualsIgnoreCaseIsFoldedEquality(a[1..], b[1..]);
      assert FoldCase(a) == [Upper(a[0])] + FoldCase(a[1..]);
      assert FoldCase(b) == [Upper(b[0])] + FoldCase(b[1..]);
      if FoldCase(a) == FoldCase(b) {
        assert FoldCase(a)[1..] == FoldCase(a[1..]);
        assert FoldCase(b)[1..] == FoldCase(b[1..]);
      }
    }
  }

  /** The comparison is an equivalence: reflexive, symmetric and transitive. */
  lemma EqualsIgnoreCaseIsEquivalence(a: string, b: string, c: string)
    ensures EqualsIgnoreCase(a, a)
    ensures EqualsIgnoreCase(a, b) ==> EqualsIgnoreCase(b, a)
    ensures EqualsIgnoreCase(a, b) && EqualsIgnoreCase(b, c) ==> EqualsIgnoreCase(a, c)
  {
    EqualsIgnoreCaseIsFoldedEquality(a, a);
    EqualsIgnoreCaseIsFoldedEquality(a, b);
    EqualsIgnoreCaseIsFoldedEquality(b, a);
    EqualsIgnoreCaseIsFoldedEquality(b, c);
    EqualsIgnoreCaseIsFoldedEquality(a, c);
  }

  /** Strings of different lengths are never equal, whatever their case. */
  lemma {:induction false} EqualsIgnoreCaseNeedsSameLength(a: string, b: string)
    requires EqualsIgnoreCase(a, b)
    ensures |a| == |b|
  {
  }

  /** A string compares equal to its own upper-cased spelling. */
  lemma EqualsItsUpperCase(s: string)
    ensures EqualsIgnoreCase(s, FoldCase(s))
  {
    var f := FoldCase(s);
    assert FoldCase(f) == f by {
      forall i | 0 <= i < |f| ensures FoldCase(f)[i] == f[i] { }
    }
    EqualsIgnoreCaseIsFoldedEquality(s, f);
  }

  /** One position whose characters differ after upper-casing makes the strings unequal. */
  lemma DifferentFoldedCharNotEqual(a: string, b: string, i: nat)
    requires i < |a| && i < |b|
    requires Upper(a[i]) != Upper(b[i])
    ensures !EqualsIgnoreCase(a, b)
  {
    EqualsIgnoreCaseIsFoldedEquality(a, b);
    assert FoldCase(a)[i] != FoldCase(b)[i];
  }
}
