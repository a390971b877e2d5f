/** Facts about sequences that the converters' proofs use: where the parts of a
    concatenation or of a sequence display sit. */
module Sequences {

  /** The two parts of a concatenation. */
  lemma ConcatParts<T>(a: seq<T>, b: seq<T>)
    ensures (a + b)[..|a|] == a && (a + b)[|a|..] == b
  {
  }

  /** A concatenation seen from its end. */
  lemma SuffixParts<T>(a: seq<T>, b: seq<T>)
    ensures var s := a + b; |s| >= |b| && s[..|s| - |b|] == a && s[|s| - |b|..] == b
  {
    ConcatParts(a, b);
  }

  /** The elements of a list behind a new first element. */
  lemma ConsIndex<T>(h: T, t: seq<T>)
    ensures |[h] + t| == |t| + 1 && ([h] + t)[0] == h
    ensures forall i :: 0 <= i < |t| ==> ([h] + t)[i + 1] == t[i]
  {
  }

  /** A sequence that agrees with `a` and then with `b` entry by entry is `a + b`. */
  lemma Pointwise<T>(l: seq<T>, a: seq<T>, b: seq<T>)
    requires |l| == |a| + |b|
    requires forall i :: 0 <= i < |a| ==> l[i] == a[i]
    requires forall i :: 0 <= i < |b| ==> l[|a| + i] == b[i]
    ensures l == a + b
  {
    forall i | 0 <= i < |l| ensures l[i] == (a + b)[i] {
      if i >= |a| {
        assert l[|a| + (i - |a|)] == b[i - |a|];
      }
    }
  }

  /** Where the pieces of a framed sequence sit. */
  lemma Framed<T>(a: T, b: T, m: seq<T>, c: T)
    ensures var s := [a] + [b] + m + [c];
      && |s| == |m| + 3 && s[0] == a && s[1] == b && s[|s| - 1] == c
      && forall i :: 0 <= i < |m| ==> s[i + 2] == m[i]
  {
  }

  /** Five appends to an empty list give the list of the five. */
  lemma FiveAppends<T>(a: T, b: T, c: T, d: T, e: T)
    ensures [] + [a] + [b] + [c] + [d] + [e] == [a, b, c, d, e]
  {
  }
}
