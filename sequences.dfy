/** Swift's `compactMap` over a sequence. */
module Sequences {

  import opened Wrappers

  /** Applies `f` to each element and keeps the present results, in order. */
  function CompactMap<A, B>(f: A -> Option<B>, xs: seq<A>): (r: seq<B>)
    ensures |r| <= |xs|
    ensures forall y :: y in r ==> exists i :: 0 <= i < |xs| && f(xs[i]) == Some(y)
  {
    if xs == [] then []
    else
      var rest := CompactMap(f, xs[1..]);
      assert forall y :: y in rest ==> exists i :: 1 <= i < |xs| && f(xs[i]) == Some(y) by {
        forall y | y in rest
          ensures exists i :: 1 <= i < |xs| && f(xs[i]) == Some(y)
        {
          var k :| 0 <= k < |xs[1..]| && f(xs[1..][k]) == Some(y);
          assert xs[k + 1] == xs[1..][k];
        }
      }
      match f(xs[0])
      case None => rest
      case Some(y) => [y] + rest
  }

  /** One element is kept exactly when `f` accepts it. */
  lemma CompactMapSingle<A, B>(f: A -> Option<B>, x: A)
    ensures CompactMap(f, [x]) == if f(x).Some? then [f(x).value] else []
  {
    assert [x][1..] == [];
  }

  /** Order is kept: mapping two runs one after the other is mapping their
      concatenation. */
  lemma {:induction false} CompactMapAppend<A, B>(f: A -> Option<B>, xs: seq<A>, ys: seq<A>)
    ensures CompactMap(f, xs + ys) == CompactMap(f, xs) + CompactMap(f, ys)
  {
    if xs == [] {
      assert xs + ys == ys;
    } else {
      var both := xs + ys;
      assert both[0] == xs[0];
      assert both[1..] == xs[1..] + ys;
      CompactMapAppend(f, xs[1..], ys);
    }
  }

  /** Nothing is kept exactly when `f` rejects every element. */
  lemma {:induction false} CompactMapEmpty<A, B>(f: A -> Option<B>, xs: seq<A>)
    ensures CompactMap(f, xs) == [] <==> forall i :: 0 <= i < |xs| ==> f(xs[i]).None?
  {
    if xs != [] {
      CompactMapEmpty(f, xs[1..]);
      assert forall i :: 1 <= i < |xs| ==> xs[i] == xs[1..][i - 1];
    }
  }

}
