/** Reversal of sequences: a stack hands out what was pushed, latest first. */
module Sequences {

  function Rev<T>(xs: seq<T>): (r: seq<T>)
    ensures |r| == |xs|
  {
    if xs == [] then [] else Rev(xs[1..]) + [xs[0]]
  }

  lemma {:induction false} RevAppend<T>(xs: seq<T>, x: T)
    ensures Rev(xs + [x]) == [x] + Rev(xs)
  {
    if xs == [] {
      assert (xs + [x])[1..] == [];
    } else {
      assert (xs + [x])[1..] == xs[1..] + [x];
      RevAppend(xs[1..], x);
    }
  }

  lemma {:induction false} RevLast<T>(xs: seq<T>)
    requires xs != []
    ensures Rev(xs) == [xs[|xs| - 1]] + Rev(xs[..|xs| - 1])
  {
    var k := |xs| - 1;
    if k == 0 {
      assert xs[1..] == [] && xs[..0] == [];
    } else {
      RevLast(xs[1..]);
      assert xs[..k][1..] == xs[1..][..k - 1];
    }
  }

  /** Reversing a tail yields the front of the reversed whole. */
  lemma {:induction false} RevTail<T>(xs: seq<T>, k: nat)
    requires k <= |xs|
    ensures Rev(xs[k..]) == Rev(xs)[..|xs| - k]
    decreases k
  {
    if k > 0 {
      RevTail(xs[1..], k - 1);
      assert xs[k..] == xs[1..][k - 1..];
    } else {
      assert xs[0..] == xs;
    }
  }

  lemma {:induction false} RevHas<T>(xs: seq<T>, x: T)
    ensures x in Rev(xs) <==> x in xs
  {
    if xs != [] {
      RevHas(xs[1..], x);
    }
  }
}
