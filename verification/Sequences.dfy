/** Sequence facts used throughout. */
module Sequences {
  function Min(a: nat, b: nat): nat {
    if a <= b then a else b
  }

  /** The elements of a list of buffers, in order. */
  function Flatten<T>(bufs: seq<seq<T>>): seq<T> {
    if bufs == [] then [] else bufs[0] + Flatten(bufs[1..])
  }

  lemma {:induction false} FlattenConcat<T>(a: seq<seq<T>>, b: seq<seq<T>>)
    ensures Flatten(a + b) == Flatten(a) + Flatten(b)
  {
    if a == [] {
      assert a + b == b;
    } else {
      FlattenConcat(a[1..], b);
      assert (a + b)[1..] == a[1..] + b;
      Assoc(a[0], Flatten(a[1..]), Flatten(b));
    }
  }

  lemma FlattenCons<T>(a: seq<T>, bufs: seq<seq<T>>)
    ensures Flatten([a] + bufs) == a + Flatten(bufs)
  {
    assert ([a] + bufs)[1..] == bufs;
  }

  lemma FlattenOne<T>(a: seq<T>)
    ensures Flatten([a]) == a
  {
  }

  lemma Assoc<T>(a: seq<T>, b: seq<T>, c: seq<T>)
    ensures a + (b + c) == (a + b) + c
  {
  }
}
