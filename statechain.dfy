/** The fold the state effect performs: starting from state 0, each element of a list
    is turned into the next state by a step that may throw, and the first exception
    ends the fold. */
module StateChain {
  import opened Js

  /** The states after the first `n` elements, or the exception a step threw. */
  function Chain<S, P>(step: (S, P) -> Outcome<S>, state0: S, elements: seq<P>, n: nat): (r: Outcome<seq<S>>)
    requires n <= |elements|
    ensures r.Ok? ==> |r.value| == n + 1 && r.value[0] == state0
  {
    if n == 0 then Ok([state0])
    else
      match Chain(step, state0, elements, n - 1)
      case Thrown(e) => Thrown(e)
      case Ok(states) =>
        match step(states[n - 1], elements[n - 1])
        case Thrown(e) => Thrown(e)
        case Ok(next) => Ok(states + [next])
  }

  /** One step of a successful fold: its first `n` states are the fold of the first
      `n - 1` elements, and its last state is the step applied to the one before. */
  lemma ChainStep<S, P>(step: (S, P) -> Outcome<S>, state0: S, elements: seq<P>, states: seq<S>, n: nat)
    requires 0 < n <= |elements|
    requires Chain(step, state0, elements, n) == Ok(states)
    ensures Chain(step, state0, elements, n - 1) == Ok(states[..n])
    ensures step(states[n - 1], elements[n - 1]) == Ok(states[n])
  {
    var before := Chain(step, state0, elements, n - 1);
    assert before.Ok? && states == before.value + [states[n]];
    assert before.value == states[..n];
  }

  /** A successful fold of `n` elements extends by the state the next step yields. */
  lemma ChainExtends<S, P>(step: (S, P) -> Outcome<S>, state0: S, elements: seq<P>, states: seq<S>, n: nat, next: S)
    requires n < |elements|
    requires Chain(step, state0, elements, n) == Ok(states)
    requires step(states[n], elements[n]) == Ok(next)
    ensures Chain(step, state0, elements, n + 1) == Ok(states + [next])
  {
  }

  /** A step that throws after `n` successful ones makes the fold of `n + 1` elements
      throw its exception. */
  lemma ChainThrowsAt<S, P>(step: (S, P) -> Outcome<S>, state0: S, elements: seq<P>, states: seq<S>, n: nat, e: Exception)
    requires n < |elements|
    requires Chain(step, state0, elements, n) == Ok(states)
    requires step(states[n], elements[n]) == Thrown(e)
    ensures Chain(step, state0, elements, n + 1) == Thrown(e)
  {
  }

  /** Once a step throws, every longer fold throws the same exception. */
  lemma {:induction false} ChainThrownPersists<S, P>(step: (S, P) -> Outcome<S>, state0: S, elements: seq<P>, m: nat, n: nat)
    requires m <= n <= |elements|
    requires Chain(step, state0, elements, m).Thrown?
    ensures Chain(step, state0, elements, n) == Chain(step, state0, elements, m)
    decreases n - m
  {
    if m < n {
      ChainThrownPersists(step, state0, elements, m, n - 1);
    }
  }

  /** A successful fold unfolds step by step: its first `m + 1` states are the fold of
      the first `m` elements, and state `m + 1` is the step applied to state `m`. */
  lemma {:induction false} ChainPrefix<S, P>(step: (S, P) -> Outcome<S>, state0: S, elements: seq<P>, states: seq<S>, m: nat, n: nat)
    requires m <= n <= |elements|
    requires Chain(step, state0, elements, n) == Ok(states)
    ensures Chain(step, state0, elements, m) == Ok(states[..m + 1])
    ensures m < n ==> step(states[m], elements[m]) == Ok(states[m + 1])
    decreases n - m
  {
    if m < n {
      ChainStep(step, state0, elements, states, n);
      ChainPrefix(step, state0, elements, states[..n], m, n - 1);
      assert states[..n][..m + 1] == states[..m + 1];
      if m + 1 < n {
        assert states[..n][m] == states[m] && states[..n][m + 1] == states[m + 1];
      }
    } else {
      assert states[..m + 1] == states;
    }
  }

  /** The fold restarts at any of its states: the states from position `k` on are the
      fold of the remaining elements from state `k` alone. */
  lemma {:induction false} ChainRestarts<S, P>(step: (S, P) -> Outcome<S>, state0: S, elements: seq<P>, states: seq<S>, k: nat, n: nat)
    requires k <= n <= |elements|
    requires Chain(step, state0, elements, n) == Ok(states)
    ensures |states| == n + 1
    ensures Chain(step, states[k], elements[k..], n - k) == Ok(states[k..])
  {
    if n == k {
      assert states[k..] == [states[k]];
    } else {
      ChainStep(step, state0, elements, states, n);
      var before := states[..n];
      ChainRestarts(step, state0, elements, before, k, n - 1);
      assert before[k] == states[k];
      assert before[k..] == states[k..n];
      var rest := elements[k..];
      assert rest[n - k - 1] == elements[n - 1];
      assert states[k..n][n - k - 1] == states[n - 1];
      assert Chain(step, states[k], rest, n - k) == Ok(states[k..n] + [states[n]]);
      assert states[k..n] + [states[n]] == states[k..];
    }
  }

  /** Each step of a successful fold produces the next state, and the fold goes on from
      that state over the elements that remain. */
  lemma ChainContinues<S, P>(step: (S, P) -> Outcome<S>, state0: S, elements: seq<P>, states: seq<S>, k: nat)
    requires k < |elements|
    requires Chain(step, state0, elements, |elements|) == Ok(states)
    ensures step(states[k], elements[k]) == Ok(states[k + 1])
    ensures Chain(step, states[k + 1], elements[k + 1..], |elements| - (k + 1)) == Ok(states[k + 1..])
  {
    ChainPrefix(step, state0, elements, states, k, |elements|);
    ChainRestarts(step, state0, elements, states, k + 1, |elements|);
  }
}
