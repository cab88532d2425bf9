/** Generic facts about sequences: duplicate-freeness and the subsequence order. */
module Seqs {

  /** No element occurs twice. */
  predicate NoDuplicates<T(==)>(xs: seq<T>)
  {
    forall i, j :: 0 <= i < j < |xs| ==> xs[i] != xs[j]
  }

  /** `xs` occurs, in order, inside `ys` (possibly with other elements between). */
  predicate IsSubsequence<T(==)>(xs: seq<T>, ys: seq<T>)
    decreases |ys|
  {
    if xs == [] then true
    else if ys == [] then false
    else if xs[0] == ys[0] then IsSubsequence(xs[1..], ys[1..])
    else IsSubsequence(xs, ys[1..])
  }

  /** Prepending the same head to both sides, or only to the longer one, keeps the relation. */
  lemma {:induction false} SubsequenceCons<T>(xs: seq<T>, ys: seq<T>, y: T, keep: bool)
    requires IsSubsequence(xs, ys)
    ensures IsSubsequence((if keep then [y] else []) + xs, [y] + ys)
  {
    if keep {
      assert ([y] + xs)[1..] == xs;
      assert ([y] + ys)[1..] == ys;
    } else {
      assert [] + xs == xs;
      if xs != [] && xs[0] == y {
        SubsequenceDrop(xs, ys);
        assert ([y] + ys)[1..] == ys;
      } else if xs != [] {
        assert ([y] + ys)[1..] == ys;
      }
    }
  }

  /** Dropping the head of the smaller side keeps the relation. */
  lemma {:induction false} SubsequenceDrop<T>(xs: seq<T>, ys: seq<T>)
    requires xs != [] && IsSubsequence(xs, ys)
    ensures IsSubsequence(xs[1..], ys)
    decreases |ys|, 0
  {
    if xs[0] == ys[0] {
      SubsequenceDrop2(xs[1..], ys[1..], ys[0]);
    } else {
      SubsequenceDrop(xs, ys[1..]);
      SubsequenceDrop2(xs[1..], ys[1..], ys[0]);
    }
  }

  /** A subsequence of the tail is a subsequence of the whole. */
  lemma {:induction false} SubsequenceDrop2<T>(xs: seq<T>, ys: seq<T>, y: T)
    requires IsSubsequence(xs, ys)
    ensures IsSubsequence(xs, [y] + ys)
    decreases |ys|, 1
  {
    assert ([y] + ys)[1..] == ys;
    if xs != [] && xs[0] == y {
      SubsequenceDrop(xs, ys);
    }
  }

  /** A subsequence is never longer than the sequence it sits in. */
  lemma {:induction false} SubsequenceLength<T>(xs: seq<T>, ys: seq<T>)
    requires IsSubsequence(xs, ys)
    ensures |xs| <= |ys|
    decreases |ys|
  {
    if xs != [] {
      if xs[0] == ys[0] {
        SubsequenceLength(xs[1..], ys[1..]);
      } else {
        SubsequenceLength(xs, ys[1..]);
      }
    }
  }
}
