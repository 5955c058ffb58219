/**
 * The few `kotlin.text` operations the modelled code uses, over `seq<char>`.
 * Each search is written as the recursion a scan performs and is tied by a
 * contract or a lemma to the declarative meaning it has.
 */
module KotlinStrings {

  /** `s.startsWith(prefix)` */
  predicate StartsWith(s: string, prefix: string)
  {
    |prefix| <= |s| && s[..|prefix|] == prefix
  }

  /** `s.endsWith(suffix)` */
  predicate EndsWith(s: string, suffix: string)
  {
    |suffix| <= |s| && s[|s| - |suffix|..] == suffix
  }

  /** `sub` occurs in `s` starting at index `i`. */
  predicate OccursAt(s: string, sub: string, i: nat)
  {
    i + |sub| <= |s| && s[i..i + |sub|] == sub
  }

  /** `s.contains(sub)`: a left-to-right scan for the first occurrence. */
  predicate Contains(s: string, sub: string)
    decreases |s|
  {
    StartsWith(s, sub) || (|s| > 0 && Contains(s[1..], sub))
  }

  /** The scan finds `sub` exactly when `sub` occurs somewhere in `s`. */
  lemma {:induction false} ContainsIffOccurs(s: string, sub: string)
    ensures Contains(s, sub) <==> exists i: nat :: OccursAt(s, sub, i)
    decreases |s|
  {
    if StartsWith(s, sub) {
      assert OccursAt(s, sub, 0);
    } else if |s| == 0 {
      // only the empty string occurs in the empty string, and it is a prefix
    } else {
      ContainsIffOccurs(s[1..], sub);
      if Contains(s[1..], sub) {
        var i: nat :| OccursAt(s[1..], sub, i);
        assert s[1..][i..i + |sub|] == s[i + 1..i + 1 + |sub|];
        assert OccursAt(s, sub, i + 1);
      } else {
        forall i: nat | OccursAt(s, sub, i) ensures false {
          if i > 0 {
            assert s[1..][i - 1..i - 1 + |sub|] == s[i..i + |sub|];
            assert OccursAt(s[1..], sub, i - 1);
          }
        }
      }
    }
  }

  /** Every character of a contained string is a character of the container. */
  lemma {:induction false} ContainsKeepsChars(s: string, sub: string, k: nat)
    requires Contains(s, sub) && k < |sub|
    ensures sub[k] in s
    decreases |s|
  {
    if StartsWith(s, sub) {
      assert s[k] == sub[k];
    } else {
      ContainsKeepsChars(s[1..], sub, k);
    }
  }

  /** A string lacking one of the characters of `sub` does not contain `sub`. */
  lemma MissingCharNotContained(s: string, sub: string, k: nat)
    requires k < |sub| && sub[k] !in s
    ensures !Contains(s, sub)
  {
    if Contains(s, sub) {
      ContainsKeepsChars(s, sub, k);
    }
  }

  /**
   * `s.substringBefore(delimiter)`: the part of `s` before the first
   * `delimiter`, or the whole of `s` when it has none.
   */
  function SubstringBefore(s: string, delimiter: char): (r: string)
    ensures |r| <= |s| && r == s[..|r|]
    ensures delimiter !in r
    ensures |r| < |s| ==> s[|r|] == delimiter
    ensures delimiter !in s ==> r == s
  {
    if |s| == 0 then []
    else if s[0] == delimiter then []
    else [s[0]] + SubstringBefore(s[1..], delimiter)
  }

  /** The prefix up to the first `delimiter` survives anything appended after it. */
  lemma {:induction false} SubstringBeforeAppend(s: string, delimiter: char, rest: string)
    requires delimiter !in s
    ensures SubstringBefore(s + [delimiter] + rest, delimiter) == s
  {
    var t := s + [delimiter] + rest;
    var r := SubstringBefore(t, delimiter);
    assert t[..|s|] == s;
    assert t[|s|] == delimiter;
  }

  /** ASCII case folding: upper-case Latin letters map to lower case. */
  function FoldCase(c: char): char
  {
    if 'A' <= c <= 'Z' then (c as int + 32) as char else c
  }

  /** `a.equals(b, ignoreCase = true)`, with ASCII case folding. */
  predicate EqualsIgnoreCase(a: string, b: string)
  {
    |a| == |b| && forall i :: 0 <= i < |a| ==> FoldCase(a[i]) == FoldCase(b[i])
  }

  /** `s` with every character case-folded. */
  function Folded(s: string): (r: string)
    ensures |r| == |s| && forall i :: 0 <= i < |s| ==> r[i] == FoldCase(s[i])
  {
    if |s| == 0 then [] else [FoldCase(s[0])] + Folded(s[1..])
  }

  /** Two strings are equal ignoring case exactly when their case-folded forms are equal. */
  lemma EqualsIgnoreCaseIffSameFold(a: string, b: string)
    ensures EqualsIgnoreCase(a, b) <==> Folded(a) == Folded(b)
  {
  }
}
