/** Concatenating images of a sequence's items: reordering the items reorders the result. */
module Permutations {

  function FlatMap<A, B>(f: A -> seq<B>, xs: seq<A>): seq<B>
    decreases |xs|
  {
    if xs == [] then [] else FlatMap(f, xs[..|xs| - 1]) + f(xs[|xs| - 1])
  }

  lemma {:induction false} FlatMapAppend<A, B>(f: A -> seq<B>, xs: seq<A>, ys: seq<A>)
    ensures FlatMap(f, xs + ys) == FlatMap(f, xs) + FlatMap(f, ys)
    decreases |ys|
  {
    if ys == [] {
      assert xs + ys == xs;
    } else {
      assert (xs + ys)[..|xs + ys| - 1] == xs + ys[..|ys| - 1];
      FlatMapAppend(f, xs, ys[..|ys| - 1]);
    }
  }

  lemma FlatMapOne<A, B>(f: A -> seq<B>, x: A)
    ensures FlatMap(f, [x]) == f(x)
  {
    assert [x][..0] == [];
  }

  function Removed<A>(ys: seq<A>, i: nat): seq<A>
    requires i < |ys|
  {
    ys[..i] + ys[i + 1..]
  }

  /** Taking one item out takes its image out. */
  lemma FlatMapWithout<A, B>(f: A -> seq<B>, ys: seq<A>, i: nat)
    requires i < |ys|
    ensures multiset(FlatMap(f, ys)) == multiset(FlatMap(f, Removed(ys, i))) + multiset(f(ys[i]))
    ensures multiset(Removed(ys, i)) == multiset(ys) - multiset{ys[i]} && |Removed(ys, i)| == |ys| - 1
  {
    hide FlatMap;
    assert ys == ys[..i] + [ys[i]] + ys[i + 1..];
    FlatMapAppend(f, ys[..i], ys[i + 1..]);
    FlatMapAppend(f, ys[..i] + [ys[i]], ys[i + 1..]);
    FlatMapAppend(f, ys[..i], [ys[i]]);
    FlatMapOne(f, ys[i]);
  }

  lemma SameBagSameEmptiness<A>(xs: seq<A>, ys: seq<A>)
    requires multiset(xs) == multiset(ys)
    ensures |xs| == |ys|
    ensures forall x :: x in xs ==> exists i :: 0 <= i < |ys| && ys[i] == x
  {
    assert |multiset(xs)| == |xs| && |multiset(ys)| == |ys|;
    forall x | x in xs
      ensures exists i :: 0 <= i < |ys| && ys[i] == x
    {
      assert x in multiset(xs);
      assert x in multiset(ys);
    }
  }

  lemma {:induction false} FlatMapPermutes<A, B>(f: A -> seq<B>, xs: seq<A>, ys: seq<A>)
    requires multiset(xs) == multiset(ys)
    ensures multiset(FlatMap(f, xs)) == multiset(FlatMap(f, ys))
    decreases |xs|
  {
    hide FlatMap, Removed;
    SameBagSameEmptiness(xs, ys);
    if xs == [] {
      assert ys == [];
    } else {
      assert xs[0] in xs;
      var i :| 0 <= i < |ys| && ys[i] == xs[0];
      FlatMapWithout(f, xs, 0);
      FlatMapWithout(f, ys, i);
      FlatMapPermutes(f, Removed(xs, 0), Removed(ys, i));
    }
  }
}
