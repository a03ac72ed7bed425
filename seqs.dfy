/** Facts about sequence prefixes that loops appending one element at a time rely on. */
module Seqs {

  /** The prefix one longer is the prefix followed by the next element. */
  lemma PrefixSnoc<T>(xs: seq<T>, i: nat)
    requires i < |xs|
    ensures xs[..i + 1] == xs[..i] + [xs[i]]
  {
  }

  /** A sequence with one more element at its end keeps its old value as a prefix. */
  lemma AppendedPrefix<T>(xs: seq<T>, x: T)
    ensures (xs + [x])[..|xs|] == xs
  {
  }
}
