/** Sequences without repetition, and mapping a sequence to the concatenation of its images. */
module Sequences {

  predicate Distinct<T(==)>(xs: seq<T>) {
    forall i, j | 0 <= i < j < |xs| :: xs[i] != xs[j]
  }

  function FlatMap<A, B>(f: A -> seq<B>, xs: seq<A>): seq<B> {
    if xs == [] then [] else f(xs[0]) + FlatMap(f, xs[1..])
  }

  lemma {:induction false} FlatMapAppend<A, B>(f: A -> seq<B>, xs: seq<A>, ys: seq<A>)
    ensures FlatMap(f, xs + ys) == FlatMap(f, xs) + FlatMap(f, ys)
  {
    if xs == [] {
      assert xs + ys == ys;
    } else {
      assert (xs + ys)[1..] == xs[1..] + ys;
      FlatMapAppend(f, xs[1..], ys);
    }
  }

  lemma FlatMapOne<A, B>(f: A -> seq<B>, x: A)
    ensures FlatMap(f, [x]) == f(x)
  {
    assert [x][1..] == [];
  }

  lemma FlatMapCons<A, B>(f: A -> seq<B>, x: A, ys: seq<A>)
    ensures FlatMap(f, [x] + ys) == f(x) + FlatMap(f, ys)
  {
    FlatMapOne(f, x);
    FlatMapAppend(f, [x], ys);
  }

  lemma FlatMapSnoc<A, B>(f: A -> seq<B>, xs: seq<A>, y: A)
    ensures FlatMap(f, xs + [y]) == FlatMap(f, xs) + f(y)
  {
    FlatMapOne(f, y);
    FlatMapAppend(f, xs, [y]);
  }

  lemma {:induction false} FlatMapNothing<A, B>(f: A -> seq<B>, xs: seq<A>)
    requires forall x <- xs :: f(x) == []
    ensures FlatMap(f, xs) == []
  {
    if xs == [] {
    } else {
      FlatMapNothing(f, xs[1..]);
    }
  }

  lemma {:induction false} NothingInFlatMap<A, B>(f: A -> seq<B>, xs: seq<A>)
    requires FlatMap(f, xs) == []
    ensures forall x <- xs :: f(x) == []
  {
    if xs == [] {
    } else {
      NothingInFlatMap(f, xs[1..]);
    }
  }

  lemma FlatMapNone<A, B>(f: A -> seq<B>)
    ensures FlatMap(f, []) == []
  {
  }
}
