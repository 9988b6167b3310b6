/** Small shared vocabulary: a nullable value and "keeps relative order". */
module Basics {

  /** A value that may be absent; stands for the `T | null` and optional
      parameters of the dashboard's state. */
  datatype Option<T> = None | Some(value: T)

  /** `a` is obtained from `b` by deleting zero or more elements, so the
      elements of `a` appear in `b` in the same relative order. */
  ghost predicate IsSubsequence<T>(a: seq<T>, b: seq<T>)
    decreases |b|
  {
    if a == [] then true
    else if b == [] then false
    else (a[0] == b[0] && IsSubsequence(a[1..], b[1..])) || IsSubsequence(a, b[1..])
  }

  /** Keeping the head of both sides preserves the subsequence relation. */
  lemma ConsSubsequence<T>(x: T, a: seq<T>, b: seq<T>)
    requires IsSubsequence(a, b)
    ensures IsSubsequence([x] + a, [x] + b)
  {
  }

  /** Adding an element in front of the larger side preserves the relation. */
  lemma SkipSubsequence<T>(x: T, a: seq<T>, b: seq<T>)
    requires IsSubsequence(a, b)
    ensures IsSubsequence(a, [x] + b)
  {
  }

  /** Every sequence is a subsequence of itself. */
  lemma {:induction false} SubsequenceOfItself<T>(a: seq<T>)
    ensures IsSubsequence(a, a)
  {
    if a != [] {
      SubsequenceOfItself(a[1..]);
    }
  }
}
