/**
 * Runs of a transition system that emits outputs: the state after a
 * sequence of inputs and every output on the way, in order.
 */
module Traces {
  /** The state after the inputs, one after another, and the outputs they produce, concatenated. */
  function Run<S, A, O>(step: (S, A) -> (S, seq<O>), s: S, actions: seq<A>): (S, seq<O>)
    decreases |actions|
  {
    if actions == [] then (s, [])
    else
      var first := step(s, actions[0]);
      var rest := Run(step, first.0, actions[1..]);
      (rest.0, first.1 + rest.1)
  }

  /** Run unfolded by one input. */
  lemma RunCons<S, A, O>(step: (S, A) -> (S, seq<O>), s: S, a: A, rest: seq<A>)
    ensures var first := step(s, a);
      Run(step, s, [a] + rest) == (Run(step, first.0, rest).0, first.1 + Run(step, first.0, rest).1)
  {
    assert ([a] + rest)[1..] == rest;
  }

  /** A run of `xs + ys` is a run of `xs` continued by a run of `ys`, outputs concatenated. */
  lemma {:induction false} RunAppend<S, A, O>(step: (S, A) -> (S, seq<O>), s: S, xs: seq<A>, ys: seq<A>)
    ensures var r1 := Run(step, s, xs); var r2 := Run(step, r1.0, ys);
      Run(step, s, xs + ys) == (r2.0, r1.1 + r2.1)
    decreases |xs|
  {
    if xs == [] {
      assert xs + ys == ys;
      var r2 := Run(step, s, ys);
      assert [] + r2.1 == r2.1;
    } else {
      var t := step(s, xs[0]);
      assert (xs + ys)[0] == xs[0];
      assert (xs + ys)[1..] == xs[1..] + ys;
      RunAppend(step, t.0, xs[1..], ys);
      var r1' := Run(step, t.0, xs[1..]);
      var r2 := Run(step, r1'.0, ys);
      assert Run(step, s, xs) == (r1'.0, t.1 + r1'.1);
      assert Run(step, s, xs + ys) == (r2.0, t.1 + (r1'.1 + r2.1));
      assert t.1 + (r1'.1 + r2.1) == (t.1 + r1'.1) + r2.1;
    }
  }

  /** An input that produces no output only moves the state. */
  lemma RunSilent<S, A, O>(step: (S, A) -> (S, seq<O>), s: S, a: A, rest: seq<A>)
    requires step(s, a).1 == []
    ensures Run(step, s, [a] + rest) == Run(step, step(s, a).0, rest)
  {
    RunCons(step, s, a, rest);
    assert [] + Run(step, step(s, a).0, rest).1 == Run(step, step(s, a).0, rest).1;
  }

  /** Two silent runs, one after the other, make one silent run. */
  lemma RunSilentConcat<S, A, O>(step: (S, A) -> (S, seq<O>), s: S, xs: seq<A>, mid: S, ys: seq<A>, t: S)
    requires Run(step, s, xs) == (mid, []) && Run(step, mid, ys) == (t, [])
    ensures Run(step, s, xs + ys) == (t, [])
  {
    RunAppend(step, s, xs, ys);
    var none: seq<O> := [];
    assert none + none == none;
  }

  /** A silent run followed by one more action: the outcome is that action's alone. */
  lemma RunSilentThen<S, A, O>(step: (S, A) -> (S, seq<O>), s: S, xs: seq<A>, mid: S, a: A)
    requires Run(step, s, xs) == (mid, [])
    ensures Run(step, s, xs + [a]) == step(mid, a)
  {
    RunAppend(step, s, xs, [a]);
    RunCons(step, mid, a, []);
    assert [a] + [] == [a];
    var last := step(mid, a);
    assert Run(step, last.0, []) == (last.0, []);
    assert Run(step, mid, [a]) == (last.0, last.1 + []);
    assert last.1 + [] == last.1;
    assert [] + last.1 == last.1;
  }

  /**
   * A chain of inputs that each move the state to the next one in
   * `states` without output runs from the first state to the last.
   */
  lemma {:induction false} RunSilentChain<S, A, O>(step: (S, A) -> (S, seq<O>), states: seq<S>, actions: seq<A>)
    requires |states| == |actions| + 1
    requires forall i :: 0 <= i < |actions| ==> step(states[i], actions[i]) == (states[i + 1], [])
    ensures Run(step, states[0], actions) == (states[|actions|], [])
    decreases |actions|
  {
    if actions != [] {
      RunSilentChain(step, states[1..], actions[1..]);
      RunSilent(step, states[0], actions[0], actions[1..]);
      assert actions == [actions[0]] + actions[1..];
    }
  }
}
