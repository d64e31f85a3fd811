/**
 * The forward pass of the recurrent cell over one window.  The cell itself
 * (concatenate the input column to the state, multiply by W, add b, tanh)
 * is a parameter: P stands for the network's parameters, C for one input
 * column and S for the hidden state.
 */
module Recurrence {

  /** The state reached by feeding inputs to the cell one after another, starting from s. */
  function Run<P, C, S>(cell: (P, C, S) -> S, p: P, inputs: seq<C>, s: S): S
    decreases |inputs|
  {
    if inputs == [] then s
    else cell(p, inputs[|inputs| - 1], Run(cell, p, inputs[..|inputs| - 1], s))
  }

  /** The state after each input, in input order. */
  function States<P, C, S>(cell: (P, C, S) -> S, p: P, inputs: seq<C>, s: S): (ss: seq<S>)
    ensures |ss| == |inputs|
    decreases |inputs|
  {
    if inputs == [] then []
    else States(cell, p, inputs[..|inputs| - 1], s) + [Run(cell, p, inputs, s)]
  }

  /**
   * The loop over inputs_series: one state is recorded per column, in
   * column order; the first is computed from init_state, every later one
   * from the state recorded just before it, and current_state ends as the
   * last recorded state (or init_state when there are no columns).
   */
  method ForwardPass<P, C, S>(cell: (P, C, S) -> S, p: P, inputsSeries: seq<C>, initState: S)
    returns (statesSeries: seq<S>, currentState: S)
    ensures |statesSeries| == |inputsSeries|
    ensures inputsSeries != [] ==> statesSeries[0] == cell(p, inputsSeries[0], initState)
    ensures forall t :: 0 < t < |inputsSeries| ==>
      statesSeries[t] == cell(p, inputsSeries[t], statesSeries[t - 1])
    ensures currentState == if inputsSeries == [] then initState else statesSeries[|inputsSeries| - 1]
    ensures statesSeries == States(cell, p, inputsSeries, initState)
    ensures currentState == Run(cell, p, inputsSeries, initState)
  {
    currentState := initState;
    statesSeries := [];
    for t := 0 to |inputsSeries|
      invariant statesSeries == States(cell, p, inputsSeries[..t], initState)
      invariant currentState == Run(cell, p, inputsSeries[..t], initState)
    {
      assert inputsSeries[..t + 1][..t] == inputsSeries[..t];
      var nextState := cell(p, inputsSeries[t], currentState);
      statesSeries := statesSeries + [nextState];
      currentState := nextState;
    }
    assert inputsSeries[..|inputsSeries|] == inputsSeries;
    StatesStep(cell, p, inputsSeries, initState);
  }

  /**
   * Each recorded state comes from the one before it (the first from the
   * initial state), and the state reached is the last one recorded.
   */
  lemma {:induction false} StatesStep<P, C, S>(cell: (P, C, S) -> S, p: P, inputs: seq<C>, s: S)
    ensures inputs != [] ==> States(cell, p, inputs, s)[0] == cell(p, inputs[0], s)
    ensures forall t :: 0 < t < |inputs| ==>
      States(cell, p, inputs, s)[t] == cell(p, inputs[t], States(cell, p, inputs, s)[t - 1])
    ensures Run(cell, p, inputs, s) == if inputs == [] then s else States(cell, p, inputs, s)[|inputs| - 1]
    decreases |inputs|
  {
    if inputs != [] {
      var n := |inputs| - 1;
      var front := inputs[..n];
      StatesStep(cell, p, front, s);
      var ss, fs := States(cell, p, inputs, s), States(cell, p, front, s);
      assert ss == fs + [Run(cell, p, inputs, s)];
      forall t | 0 < t < |inputs|
        ensures ss[t] == cell(p, inputs[t], ss[t - 1])
      {
        if t < n {
          assert ss[t] == fs[t] && inputs[t] == front[t] && ss[t - 1] == fs[t - 1];
        } else {
          assert ss[t - 1] == fs[n - 1];
        }
      }
    }
  }

  /** Feeding a then b is feeding a, then feeding b from where a left off. */
  lemma {:induction false} RunAppend<P, C, S>(cell: (P, C, S) -> S, p: P, a: seq<C>, b: seq<C>, s: S)
    ensures Run(cell, p, a + b, s) == Run(cell, p, b, Run(cell, p, a, s))
    decreases |b|
  {
    if b == [] {
      assert a + b == a;
    } else {
      var n := |b| - 1;
      assert (a + b)[..|a + b| - 1] == a + b[..n];
      RunAppend(cell, p, a, b[..n], s);
    }
  }

  /** The states recorded over a then b are those over a followed by those over b started from a's last state. */
  lemma {:induction false} StatesAppend<P, C, S>(cell: (P, C, S) -> S, p: P, a: seq<C>, b: seq<C>, s: S)
    ensures States(cell, p, a + b, s) == States(cell, p, a, s) + States(cell, p, b, Run(cell, p, a, s))
    decreases |b|
  {
    if b == [] {
      assert a + b == a;
    } else {
      var n := |b| - 1;
      assert (a + b)[..|a + b| - 1] == a + b[..n];
      StatesAppend(cell, p, a, b[..n], s);
      RunAppend(cell, p, a, b, s);
    }
  }

  /**
   * A one-lane cell applied to every lane of a batch: lane r of the new
   * state is computed from lane r of the input column and of the old state
   * only, as the row-wise concat, matmul and broadcast bias do.
   */
  function Lift<P, T>(step: (P, int, T) -> T): (P, seq<int>, seq<T>) -> seq<T> {
    (p: P, col: seq<int>, st: seq<T>) =>
      seq(if |col| < |st| then |col| else |st|, r requires 0 <= r < |col| && r < |st| => step(p, col[r], st[r]))
  }

  /** Entry r of every input column: the input sequence of one lane. */
  function Lane(inputs: seq<seq<int>>, r: nat): (lane: seq<int>)
    requires forall t :: 0 <= t < |inputs| ==> r < |inputs[t]|
    ensures |lane| == |inputs|
  {
    seq(|inputs|, t requires 0 <= t < |inputs| => inputs[t][r])
  }

  /**
   * Lanes do not interact: running the lifted cell over a batch gives, in
   * every lane, the run of the one-lane cell over that lane's inputs from
   * that lane's initial state.
   */
  lemma {:induction false} LanesEvolveIndependently<P, T>(step: (P, int, T) -> T, p: P, inputs: seq<seq<int>>, s: seq<T>)
    requires forall t :: 0 <= t < |inputs| ==> |inputs[t]| == |s|
    ensures |Run(Lift(step), p, inputs, s)| == |s|
    ensures forall r :: 0 <= r < |s| ==>
      Run(Lift(step), p, inputs, s)[r] == Run(step, p, Lane(inputs, r), s[r])
    decreases |inputs|
  {
    if inputs != [] {
      var n := |inputs| - 1;
      var front := inputs[..n];
      LanesEvolveIndependently(step, p, front, s);
      forall r | 0 <= r < |s|
        ensures Run(Lift(step), p, inputs, s)[r] == Run(step, p, Lane(inputs, r), s[r])
      {
        assert Lane(inputs, r)[..n] == Lane(front, r);
      }
    }
  }
}
