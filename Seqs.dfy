/** Facts about sequence concatenation that the stream proofs lean on. */
module Seqs {

  lemma AppendAssoc<T>(a: seq<T>, b: seq<T>, c: seq<T>)
    ensures a + b + c == a + (b + c)
  {
  }

  /** The first element and the rest of a concatenation whose left part is non-empty. */
  lemma AppendCons<T>(xs: seq<T>, ys: seq<T>)
    requires xs != []
    ensures (xs + ys)[0] == xs[0] && (xs + ys)[1..] == xs[1..] + ys
  {
    assert (xs + ys)[1..] == xs[1..] + ys;
  }

  lemma TakeThree<T>(b: seq<T>)
    requires |b| >= 3
    ensures b[..3] == [b[0], b[1], b[2]]
  {
  }

  lemma SplitAt<T>(b: seq<T>, i: nat)
    requires i <= |b|
    ensures b[..i] + b[i..] == b
  {
  }

  /** A concatenation splits back into its parts at the length of the first. */
  lemma SplitAppend<T>(p: seq<T>, x: seq<T>)
    ensures (p + x)[..|p|] == p && (p + x)[|p|..] == x
  {
  }
}
