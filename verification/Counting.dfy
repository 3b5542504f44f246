/** Sizes of finite sets and of sequences without repetition. */
module Counting {

  ghost function Pick<T>(xs: set<T>): T
    requires xs != {}
  {
    var x :| x in xs;
    x
  }

  ghost function SeqSet<T>(xs: seq<T>): set<T> {
    set x | x in xs
  }

  lemma {:induction false} DistinctSeqSize<T>(xs: seq<T>)
    requires forall i, j :: 0 <= i < j < |xs| ==> xs[i] != xs[j]
    ensures |SeqSet(xs)| == |xs|
  {
    if xs != [] {
      var init := xs[..|xs| - 1];
      DistinctSeqSize(init);
      assert SeqSet(xs) == SeqSet(init) + {xs[|xs| - 1]};
    }
  }

  lemma {:induction false} SubsetSize<T>(xs: set<T>, ys: set<T>)
    requires xs <= ys
    ensures |xs| <= |ys|
  {
    if xs != {} {
      var x := Pick(xs);
      SubsetSize(xs - {x}, ys - {x});
    }
  }
}
