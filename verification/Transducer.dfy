/** A state machine that turns each element of a sequence into one output element. */
module Transducer {
  import opened Sequences

  function Run<S, A, B>(step: (S, A) -> (S, B), s: S, xs: seq<A>): (r: (S, seq<B>))
    ensures |r.1| == |xs|
  {
    if xs == [] then (s, [])
    else
      var n := |xs| - 1;
      var (s', ys) := Run(step, s, xs[..n]);
      var (s'', y) := step(s', xs[n]);
      (s'', ys + [y])
  }

  /** Running over two pieces is running over their concatenation. */
  lemma {:induction false} RunSplit<S, A, B>(step: (S, A) -> (S, B), s: S, a: seq<A>, b: seq<A>)
    ensures var (s1, out1) := Run(step, s, a); var (s2, out2) := Run(step, s1, b);
            Run(step, s, a + b).0 == s2 && Run(step, s, a + b).1 == out1 + out2
  {
    if b == [] {
      assert a + b == a;
    } else {
      var n := |b| - 1;
      RunSplit(step, s, a, b[..n]);
      assert (a + b)[..|a| + n] == a + b[..n] && (a + b)[|a| + n] == b[n];
      var (s1, out1) := Run(step, s, a);
      var (t, ys) := Run(step, s1, b[..n]);
      Assoc(out1, ys, [step(t, b[n]).1]);
    }
  }

  /** If `back` undoes `step` element by element and moves the state alike, it does so on sequences. */
  lemma {:induction false} RunInverse<S(!new), A(!new), B>(step: (S, A) -> (S, B), back: (S, B) -> (S, A), s: S, xs: seq<A>)
    requires forall t: S, x: A {:trigger step(t, x)} :: back(t, step(t, x).1) == (step(t, x).0, x)
    ensures Run(back, s, Run(step, s, xs).1).0 == Run(step, s, xs).0
    ensures Run(back, s, Run(step, s, xs).1).1 == xs
  {
    if xs != [] {
      var n := |xs| - 1;
      RunInverse(step, back, s, xs[..n]);
      var (t, ys) := Run(step, s, xs[..n]);
      var y := step(t, xs[n]).1;
      assert Run(step, s, xs).1 == ys + [y] && (ys + [y])[..n] == ys;
      assert back(t, y) == (step(t, xs[n]).0, xs[n]);
    }
  }
}
