/** Concatenating what a function yields for each element of a sequence. */
module Seqs {

  function FlatMap<A, T>(xs: seq<A>, f: A -> seq<T>): seq<T>
  {
    if |xs| == 0 then [] else f(xs[0]) + FlatMap(xs[1..], f)
  }

  lemma {:induction false} FlatMapAppend<A, T>(xs: seq<A>, ys: seq<A>, f: A -> seq<T>)
    ensures FlatMap(xs + ys, f) == FlatMap(xs, f) + FlatMap(ys, f)
  {
    if |xs| == 0 {
      assert xs + ys == ys;
    } else {
      assert (xs + ys)[1..] == xs[1..] + ys;
      FlatMapAppend(xs[1..], ys, f);
    }
  }

  /** Taking out the element at `i` takes exactly that element out of the multiset. */
  lemma MultisetRemoveAt<A>(ys: seq<A>, i: int)
    requires 0 <= i < |ys|
    ensures multiset(ys[..i] + ys[i + 1..]) == multiset(ys) - multiset{ys[i]}
  {
    assert ys == ys[..i] + [ys[i]] + ys[i + 1..];
  }

  /** The output for `ys` is the output for `ys` without its element `i`, with `f(ys[i])` spliced in. */
  lemma FlatMapSplice<A, T>(ys: seq<A>, i: int, f: A -> seq<T>)
    requires 0 <= i < |ys|
    ensures multiset(FlatMap(ys, f)) == multiset(FlatMap(ys[..i] + ys[i + 1..], f)) + multiset(f(ys[i]))
  {
    var before, after := ys[..i], ys[i + 1..];
    assert ys == before + ([ys[i]] + after);
    FlatMapAppend(before, [ys[i]] + after, f);
    FlatMapAppend([ys[i]], after, f);
    FlatMapAppend(before, after, f);
    assert FlatMap([ys[i]], f) == f(ys[i]);
  }

  /** Reordering the input reorders the output and nothing more. */
  lemma {:induction false} FlatMapPermutation<A, T>(xs: seq<A>, ys: seq<A>, f: A -> seq<T>)
    requires multiset(xs) == multiset(ys)
    ensures multiset(FlatMap(xs, f)) == multiset(FlatMap(ys, f))
    decreases |xs|
  {
    if |xs| == 0 {
      assert |ys| == |multiset(ys)| == 0;
    } else {
      var x := xs[0];
      assert x in multiset(ys);
      var i :| 0 <= i < |ys| && ys[i] == x;
      MultisetRemoveAt(xs, 0);
      MultisetRemoveAt(ys, i);
      assert xs[..0] + xs[1..] == xs[1..];
      FlatMapPermutation(xs[1..], ys[..i] + ys[i + 1..], f);
      FlatMapSplice(ys, i, f);
    }
  }
}
