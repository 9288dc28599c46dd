/** Runs of a step relation. */
module Paths {

  /** Step `i` of a run through the states. */
  ghost predicate StepAt<S, A>(step: (S, A, S) -> bool, states: seq<S>, acts: seq<A>, i: nat) {
    i < |acts| && i + 1 < |states| && step(states[i], acts[i], states[i + 1])
  }

  ghost predicate Passes<S, A>(step: (S, A, S) -> bool, states: seq<S>, acts: seq<A>) {
    |states| == |acts| + 1 && forall i :: 0 <= i < |acts| ==> StepAt(step, states, acts, i)
  }

  /** The last state is reached from the first by the actions. */
  ghost predicate Path<S(!new), A>(step: (S, A, S) -> bool, first: S, acts: seq<A>, last: S) {
    exists states :: Passes(step, states, acts) && states[0] == first && states[|acts|] == last
  }

  lemma PathFirst<S(!new), A>(step: (S, A, S) -> bool, first: S, acts: seq<A>, last: S) returns (second: S)
    requires Path(step, first, acts, last) && acts != []
    ensures step(first, acts[0], second) && Path(step, second, acts[1..], last)
  {
    var states :| Passes(step, states, acts) && states[0] == first && states[|acts|] == last;
    var rest := states[1..];
    assert StepAt(step, states, acts, 0);
    second := states[1];
    forall i | 0 <= i < |acts[1..]| ensures StepAt(step, rest, acts[1..], i) {
      assert StepAt(step, states, acts, i + 1);
    }
    assert Passes(step, rest, acts[1..]);
  }

  lemma PathCons<S(!new), A>(step: (S, A, S) -> bool, first: S, acts: seq<A>, second: S, last: S)
    requires acts != [] && step(first, acts[0], second) && Path(step, second, acts[1..], last)
    ensures Path(step, first, acts, last)
  {
    var rest :| Passes(step, rest, acts[1..]) && rest[0] == second && rest[|acts[1..]|] == last;
    var states := [first] + rest;
    forall i | 0 <= i < |acts| ensures StepAt(step, states, acts, i) {
      assert i > 0 ==> StepAt(step, rest, acts[1..], i - 1);
    }
    assert Passes(step, states, acts) && states[0] == first && states[|acts|] == last;
  }

  lemma NoStep<S(!new), A>(step: (S, A, S) -> bool, only: S, acts: seq<A>)
    requires acts == []
    ensures Path(step, only, acts, only)
  {
    var states := [only];
    assert Passes(step, states, acts) && states[0] == only && states[|acts|] == only;
  }

  lemma OneStep<S(!new), A>(step: (S, A, S) -> bool, first: S, a: A, last: S)
    requires step(first, a, last)
    ensures Path(step, first, [a], last)
  {
    NoStep(step, last, [a][1..]);
    PathCons(step, first, [a], last, last);
  }

  lemma TwoSteps<S(!new), A>(step: (S, A, S) -> bool, first: S, a: A, middle: S, b: A, last: S)
    requires step(first, a, middle) && step(middle, b, last)
    ensures Path(step, first, [a, b], last)
  {
    OneStep(step, middle, b, last);
    assert [a, b][1..] == [b];
    PathCons(step, first, [a, b], middle, last);
  }

  lemma {:induction false} PathJoin<S(!new), A>(
    step: (S, A, S) -> bool, first: S, a: seq<A>, middle: S, b: seq<A>, last: S)
    requires Path(step, first, a, middle) && Path(step, middle, b, last)
    ensures Path(step, first, a + b, last)
    decreases |a|
  {
    if a == [] {
      var states :| Passes(step, states, a) && states[0] == first && states[|a|] == middle;
      assert first == middle && a + b == b;
    } else {
      var second := PathFirst(step, first, a, middle);
      PathJoin(step, second, a[1..], middle, b, last);
      assert (a + b)[1..] == a[1..] + b && (a + b)[0] == a[0];
      PathCons(step, first, a + b, second, last);
    }
  }
}
