/** Concatenating one block of output per input element, in input order:
    the shape of the explode loop and of a left join. */
module Flatten {

  function Concat<A, B>(xs: seq<A>, f: A -> seq<B>): seq<B> {
    if |xs| == 0 then [] else Concat(xs[..|xs| - 1], f) + f(xs[|xs| - 1])
  }

  /** The sum of the block sizes. */
  function Total<A, B>(xs: seq<A>, f: A -> seq<B>): nat {
    if |xs| == 0 then 0 else Total(xs[..|xs| - 1], f) + |f(xs[|xs| - 1])|
  }

  lemma {:induction false} ConcatLength<A, B>(xs: seq<A>, f: A -> seq<B>)
    ensures |Concat(xs, f)| == Total(xs, f)
  {
    if |xs| > 0 {
      ConcatLength(xs[..|xs| - 1], f);
    }
  }

  lemma {:induction false} ConcatAppend<A, B>(xs: seq<A>, ys: seq<A>, f: A -> seq<B>)
    ensures Concat(xs + ys, f) == Concat(xs, f) + Concat(ys, f)
    ensures Total(xs + ys, f) == Total(xs, f) + Total(ys, f)
    decreases |ys|
  {
    if |ys| == 0 {
      assert xs + ys == xs;
    } else {
      var init := ys[..|ys| - 1];
      assert (xs + ys)[..|xs + ys| - 1] == xs + init;
      ConcatAppend(xs, init, f);
    }
  }

  lemma ConcatOne<A, B>(x: A, f: A -> seq<B>)
    ensures Concat([x], f) == f(x)
  {
    assert [x][..0] == [];
  }

  /** Block i starts at the total size of the blocks before it. */
  lemma {:induction false} ConcatAt<A, B>(xs: seq<A>, f: A -> seq<B>, i: nat, j: nat)
    requires i < |xs| && j < |f(xs[i])|
    ensures Total(xs[..i], f) + j < |Concat(xs, f)|
    ensures Concat(xs, f)[Total(xs[..i], f) + j] == f(xs[i])[j]
  {
    var n := |xs|;
    var init := xs[..n - 1];
    ConcatLength(init, f);
    ConcatLength(xs, f);
    if i == n - 1 {
      assert xs[..i] == init;
    } else {
      assert init[..i] == xs[..i] && init[i] == xs[i];
      ConcatAt(init, f, i, j);
    }
  }

  /** Every output element comes from the block of some input element. */
  lemma {:induction false} ConcatOrigin<A, B>(xs: seq<A>, f: A -> seq<B>, k: nat)
    requires k < |Concat(xs, f)|
    ensures exists i, j :: 0 <= i < |xs| && 0 <= j < |f(xs[i])| && Concat(xs, f)[k] == f(xs[i])[j]
  {
    var n := |xs|;
    var init := xs[..n - 1];
    ConcatLength(init, f);
    if k < |Concat(init, f)| {
      ConcatOrigin(init, f, k);
      var i, j :| 0 <= i < |init| && 0 <= j < |f(init[i])| && Concat(init, f)[k] == f(init[i])[j];
      assert xs[i] == init[i];
    } else {
      var j := k - |Concat(init, f)|;
      assert Concat(xs, f)[k] == f(xs[n - 1])[j];
    }
  }

  /** When every block has one element, the output is as long as the input
      and element i is the block of input i. */
  lemma {:induction false} ConcatSingletons<A, B>(xs: seq<A>, f: A -> seq<B>)
    requires forall i :: 0 <= i < |xs| ==> |f(xs[i])| == 1
    ensures |Concat(xs, f)| == |xs|
    ensures forall i :: 0 <= i < |xs| ==> Concat(xs, f)[i] == f(xs[i])[0]
  {
    if |xs| > 0 {
      var init := xs[..|xs| - 1];
      assert forall i :: 0 <= i < |init| ==> init[i] == xs[i];
      ConcatSingletons(init, f);
    }
  }

  /** A property of every element of every block holds of every output element. */
  lemma {:induction false} ConcatEvery<A, B>(xs: seq<A>, f: A -> seq<B>, p: B -> bool)
    requires forall i, j :: 0 <= i < |xs| && 0 <= j < |f(xs[i])| ==> p(f(xs[i])[j])
    ensures forall k :: 0 <= k < |Concat(xs, f)| ==> p(Concat(xs, f)[k])
  {
    if |xs| > 0 {
      var init := xs[..|xs| - 1];
      assert forall i :: 0 <= i < |init| ==> init[i] == xs[i];
      ConcatEvery(init, f, p);
      forall k | 0 <= k < |Concat(xs, f)|
        ensures p(Concat(xs, f)[k])
      {
        if k >= |Concat(init, f)| {
          assert Concat(xs, f)[k] == f(xs[|xs| - 1])[k - |Concat(init, f)|];
        }
      }
    }
  }
}
