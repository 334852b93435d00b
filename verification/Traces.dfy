/** Runs of a deterministic transition system, whatever its states and inputs are. */
module Traces {

  /** Each state follows from the previous one by the corresponding input. */
  ghost predicate Trace<S(!new), I(!new)>(step: (S, I) -> S, states: seq<S>, inputs: seq<I>) {
    && |states| == |inputs| + 1
    && forall k {:trigger inputs[k]} :: 0 <= k < |inputs| ==> states[k + 1] == step(states[k], inputs[k])
  }

  ghost predicate Path<S(!new), I(!new)>(step: (S, I) -> S, states: seq<S>, inputs: seq<I>, s: S, s': S) {
    Trace(step, states, inputs) && states[0] == s && states[|inputs|] == s'
  }

  /** Some sequence of inputs leads from `s` to `s'`. */
  ghost predicate Leads<S(!new), I(!new)>(step: (S, I) -> S, s: S, s': S) {
    exists states, inputs :: Path(step, states, inputs, s, s')
  }

  lemma OneStep<S(!new), I(!new)>(step: (S, I) -> S, s: S, i: I)
    ensures Leads(step, s, step(s, i))
  {
    assert Path(step, [s, step(s, i)], [i], s, step(s, i));
  }

  lemma Compose<S(!new), I(!new)>(step: (S, I) -> S, a: S, b: S, c: S)
    requires Leads(step, a, b) && Leads(step, b, c)
    ensures Leads(step, a, c)
  {
    var xs, first :| Path(step, xs, first, a, b);
    var ys, second :| Path(step, ys, second, b, c);
    var states, inputs := xs + ys[1..], first + second;
    forall k | 0 <= k < |inputs| ensures states[k + 1] == step(states[k], inputs[k]) {
      if k < |first| {
        assert inputs[k] == first[k];
      } else {
        assert inputs[k] == second[k - |first|];
        assert states[k] == ys[k - |first|];
      }
    }
    assert Path(step, states, inputs, a, c);
  }

  /** `rel` holds along a run from a good state when steps keep states good and extend `rel`. */
  ghost predicate Progress<S(!new), I(!new)>(step: (S, I) -> S, good: S -> bool, rel: (S, S) -> bool) {
    && (forall s :: rel(s, s))
    && (forall s, i :: good(s) ==> good(step(s, i)))
    && (forall a, s, i :: good(s) && rel(a, s) ==> rel(a, step(s, i)))
  }

  lemma {:induction false} Along<S(!new), I(!new)>(step: (S, I) -> S, good: S -> bool, rel: (S, S) -> bool,
                                                    states: seq<S>, inputs: seq<I>, n: nat)
    requires Progress(step, good, rel) && Trace(step, states, inputs) && n <= |inputs| && good(states[0])
    ensures good(states[n]) && rel(states[0], states[n])
  {
    if n > 0 {
      Along(step, good, rel, states, inputs, n - 1);
      assert states[n] == step(states[n - 1], inputs[n - 1]);
    }
  }

  /** The induction principle for runs. */
  lemma Throughout<S(!new), I(!new)>(step: (S, I) -> S, good: S -> bool, rel: (S, S) -> bool, s: S, s': S)
    requires Progress(step, good, rel) && Leads(step, s, s') && good(s)
    ensures good(s') && rel(s, s')
  {
    var states, inputs :| Path(step, states, inputs, s, s');
    Along(step, good, rel, states, inputs, |inputs|);
  }
}
