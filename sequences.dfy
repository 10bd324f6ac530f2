/** Order-preserving subsequences, used to state what filtering keeps. */
module Sequences {

  /** `a` is obtained from `b` by deleting elements, keeping the order. */
  predicate IsSubsequence<T(==)>(a: seq<T>, b: seq<T>)
    decreases |b|
  {
    if a == [] then true
    else if b == [] then false
    else if a[0] == b[0] then IsSubsequence(a[1..], b[1..])
    else IsSubsequence(a, b[1..])
  }

  lemma {:induction false} SubsequenceRefl<T>(a: seq<T>)
    ensures IsSubsequence(a, a)
  {
    if a != [] {
      SubsequenceRefl(a[1..]);
    }
  }

  /** A prefix of a subsequence is still a subsequence. */
  lemma {:induction false} SubsequenceTake<T>(a: seq<T>, b: seq<T>, n: nat)
    requires IsSubsequence(a, b) && n <= |a|
    ensures IsSubsequence(a[..n], b)
    decreases |b|
  {
    if n == 0 {
    } else if a[0] == b[0] {
      SubsequenceTake(a[1..], b[1..], n - 1);
      assert a[1..][..n - 1] == a[..n][1..];
    } else {
      SubsequenceTake(a, b[1..], n);
    }
  }

  /** A subsequence of the tail is a subsequence of the whole. */
  lemma {:induction false} SkipHead<T>(a: seq<T>, b: seq<T>)
    requires b != [] && IsSubsequence(a, b[1..])
    ensures IsSubsequence(a, b)
    decreases |b|, 0
  {
    if a != [] && a[0] == b[0] {
      DropFirst(a, b[1..]);
    }
  }

  /** Dropping the first element of a subsequence keeps it a subsequence. */
  lemma {:induction false} DropFirst<T>(a: seq<T>, c: seq<T>)
    requires a != [] && IsSubsequence(a, c)
    ensures IsSubsequence(a[1..], c)
    decreases |c|, 1
  {
    if a[0] == c[0] {
      SkipHead(a[1..], c);
    } else {
      DropFirst(a, c[1..]);
      SkipHead(a[1..], c);
    }
  }
}
