/** Sequence utilities standing for `Vec::reverse`. */
module Seqs {

  /** The sequence `s` read back to front. */
  function Reversed<T>(s: seq<T>): (r: seq<T>)
    ensures |r| == |s|
    ensures forall k :: 0 <= k < |s| ==> r[k] == s[|s| - 1 - k]
  {
    if |s| == 0 then [] else [s[|s| - 1]] + Reversed(s[..|s| - 1])
  }

  /** Reversing after a push puts the pushed element first. */
  lemma ReversedPush<T>(s: seq<T>, x: T)
    ensures Reversed(s + [x]) == [x] + Reversed(s)
  {
    assert (s + [x])[..|s|] == s;
  }

  /** Two singletons joined are the two-element sequence. */
  lemma PairOfSingletons<T>(x: T, y: T)
    ensures [x] + [y] == [x, y]
  {
  }

  /** Moving the last element of a prefix onto a reversed suffix keeps the whole. */
  lemma PushAcross<T>(a: seq<T>, x: T, r: seq<T>)
    ensures (a + [x]) + Reversed(r) == a + Reversed(r + [x])
  {
    ReversedPush(r, x);
    assert (a + [x]) + Reversed(r) == a + ([x] + Reversed(r));
  }
}
