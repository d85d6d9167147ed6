/** Sequence facts used throughout. */
module Seqs {

  lemma Assoc<T>(a: seq<T>, b: seq<T>, c: seq<T>)
    ensures a + (b + c) == (a + b) + c
  {
  }

  function Flatten<T>(chunks: seq<seq<T>>): (r: seq<T>)
  {
    if chunks == [] then [] else chunks[0] + Flatten(chunks[1..])
  }

  lemma {:induction false} FlattenAppend<T>(a: seq<seq<T>>, b: seq<seq<T>>)
    ensures Flatten(a + b) == Flatten(a) + Flatten(b)
  {
    if a == [] {
      assert a + b == b;
    } else {
      assert (a + b)[1..] == a[1..] + b;
      FlattenAppend(a[1..], b);
      Assoc(a[0], Flatten(a[1..]), Flatten(b));
    }
  }

  lemma FlattenSnoc<T>(a: seq<seq<T>>, x: seq<T>)
    ensures Flatten(a + [x]) == Flatten(a) + x
  {
    FlattenAppend(a, [x]);
    assert Flatten([x]) == x + Flatten<T>([]);
  }

  /** Every element replaced by the sequence it stands for. */
  function FlatMap<S, T>(xs: seq<S>, pick: S -> seq<T>): (r: seq<T>)
  {
    if xs == [] then [] else pick(xs[0]) + FlatMap(xs[1..], pick)
  }

  lemma {:induction false} FlatMapAppend<S, T>(a: seq<S>, b: seq<S>, pick: S -> seq<T>)
    ensures FlatMap(a + b, pick) == FlatMap(a, pick) + FlatMap(b, pick)
  {
    if a == [] {
      assert a + b == b;
    } else {
      assert (a + b)[1..] == a[1..] + b && (a + b)[0] == a[0];
      FlatMapAppend(a[1..], b, pick);
      Assoc(pick(a[0]), FlatMap(a[1..], pick), FlatMap(b, pick));
    }
  }

  lemma FlatMapOne<S, T>(x: S, pick: S -> seq<T>)
    ensures FlatMap([x], pick) == pick(x)
  {
    assert [x][1..] == [];
  }

  lemma FlatMapSnoc<S, T>(a: seq<S>, x: S, pick: S -> seq<T>)
    ensures FlatMap(a + [x], pick) == FlatMap(a, pick) + pick(x)
  {
    FlatMapAppend(a, [x], pick);
    FlatMapOne(x, pick);
  }

  lemma {:induction false} FlatMapEmpty<S, T>(xs: seq<S>, pick: S -> seq<T>)
    requires forall x <- xs :: pick(x) == []
    ensures FlatMap(xs, pick) == []
  {
    if xs != [] {
      FlatMapEmpty(xs[1..], pick);
    }
  }

  lemma FlatMapPrefix<S, T>(xs: seq<S>, j: nat, pick: S -> seq<T>)
    requires j <= |xs|
    ensures FlatMap(xs[..j], pick) <= FlatMap(xs, pick)
  {
    FlatMapAppend(xs[..j], xs[j..], pick);
    assert xs == xs[..j] + xs[j..];
  }
}
