/** Order-preserving selection from a sequence, used wherever the program
    filters a list and keeps the survivors in their original order. */
module Seqs {

  /** `a` can be obtained from `b` by deleting elements. */
  predicate IsSubsequence<T(==)>(a: seq<T>, b: seq<T>)
    decreases |b|
  {
    if |a| == 0 then true
    else if |b| == 0 then false
    else (a[0] == b[0] && IsSubsequence(a[1..], b[1..])) || IsSubsequence(a, b[1..])
  }

  /** Keeping or dropping the head of `b` extends a subsequence of its tail. */
  lemma SubsequenceCons<T>(x: T, a: seq<T>, b: seq<T>)
    requires IsSubsequence(a, b)
    ensures IsSubsequence([x] + a, [x] + b)
    ensures IsSubsequence(a, [x] + b)
  {
  }

  /** Keeping `x` or not, a subsequence of `b` extends to one of `[x] + b`. */
  lemma SubsequenceMaybeCons<T>(keep: bool, x: T, a: seq<T>, b: seq<T>)
    requires IsSubsequence(a, b)
    ensures IsSubsequence((if keep then [x] else []) + a, [x] + b)
  {
    SubsequenceCons(x, a, b);
    if !keep { assert [] + a == a; }
  }
}
