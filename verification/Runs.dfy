/** Finite runs of a transition system and the two ways they are reasoned about:
    invariants for safety, measures for length. */
module Runs {

  /** A run starts in an initial state and takes one step after the other. */
  ghost predicate IsRun<S(!new)>(init: S -> bool, next: (S, S) -> bool, run: seq<S>) {
    && |run| > 0
    && init(run[0])
    && forall j, k :: 0 <= j < |run| && 0 <= k < |run| && k == j + 1 ==> next(run[j], run[k])
  }

  function Last<S>(run: seq<S>): S
    requires |run| > 0
  {
    run[|run| - 1]
  }

  lemma Extend<S(!new)>(init: S -> bool, next: (S, S) -> bool, run: seq<S>, t: S) returns (longer: seq<S>)
    requires IsRun(init, next, run) && next(Last(run), t)
    ensures longer == run + [t] && IsRun(init, next, longer) && longer[0] == run[0] && Last(longer) == t
  {
    longer := run + [t];
    forall j, k | 0 <= j < |longer| && 0 <= k < |longer| && k == j + 1 ensures next(longer[j], longer[k]) {
      if k < |run| {
        assert next(run[j], run[k]);
      }
    }
  }

  /** What holds initially and is kept by every step holds throughout every run. */
  lemma {:induction false} Invariance<S(!new)>(init: S -> bool, next: (S, S) -> bool, inv: S -> bool, run: seq<S>)
    requires IsRun(init, next, run)
    requires forall s :: init(s) ==> inv(s)
    requires forall s, t :: inv(s) && next(s, t) ==> inv(t)
    ensures forall k :: 0 <= k < |run| ==> inv(run[k])
  {
    var n := 0;
    while n + 1 < |run|
      invariant 0 <= n < |run|
      invariant forall k :: 0 <= k <= n ==> inv(run[k])
    {
      assert next(run[n], run[n + 1]);
      n := n + 1;
    }
  }

  /** A run together with the actions that were taken; step k leads from run[k] to run[k + 1]. */
  ghost predicate IsTrace<S(!new), A(!new)>(init: S -> bool, step: (S, A, S) -> bool, run: seq<S>, acts: seq<A>) {
    && |run| == |acts| + 1
    && init(run[0])
    && forall j, k :: 0 <= j < |acts| && 0 <= k < |run| && k == j + 1 ==> step(run[j], acts[j], run[k])
  }

  lemma TraceIsRun<S(!new), A(!new)>(init: S -> bool, step: (S, A, S) -> bool, next: (S, S) -> bool,
                                     run: seq<S>, acts: seq<A>)
    requires IsTrace(init, step, run, acts)
    requires forall s, a, t :: step(s, a, t) ==> next(s, t)
    ensures IsRun(init, next, run)
  {
    forall j, k | 0 <= j < |run| && 0 <= k < |run| && k == j + 1 ensures next(run[j], run[k]) {
      assert step(run[j], acts[j], run[k]);
    }
  }

  /** What holds initially of no actions, and is kept by every step when its action is added to
      those already taken, holds throughout every trace. */
  lemma TraceInvariance<S(!new), A(!new)>(init: S -> bool, step: (S, A, S) -> bool, inv: (S, seq<A>) -> bool,
                                          run: seq<S>, acts: seq<A>)
    requires IsTrace(init, step, run, acts)
    requires forall s :: init(s) && s == run[0] ==> inv(s, [])
    requires forall s, done, a, t :: inv(s, done) && step(s, a, t) ==> inv(t, done + [a])
    ensures forall k :: 0 <= k < |run| ==> inv(run[k], acts[..k])
    ensures inv(Last(run), acts)
  {
    var n := 0;
    assert acts[..0] == [];
    while n + 1 < |run|
      invariant 0 <= n < |run|
      invariant forall k :: 0 <= k <= n ==> inv(run[k], acts[..k])
    {
      assert step(run[n], acts[n], run[n + 1]);
      assert acts[..n + 1] == acts[..n] + [acts[n]];
      n := n + 1;
    }
    assert acts[..|acts|] == acts;
  }

  /** If every step lowers a measure that stays nonnegative, a run cannot be longer
      than its initial measure allows. */
  lemma {:induction false} Finiteness<S(!new)>(init: S -> bool, next: (S, S) -> bool, inv: S -> bool,
                                               measure: S -> int, run: seq<S>)
    requires IsRun(init, next, run)
    requires forall s :: init(s) ==> inv(s)
    requires forall s, t :: inv(s) && next(s, t) ==> inv(t) && measure(t) < measure(s)
    requires forall s :: inv(s) ==> measure(s) >= 0
    ensures |run| <= measure(run[0]) + 1
  {
    Invariance(init, next, inv, run);
    var n := 0;
    while n + 1 < |run|
      invariant 0 <= n < |run|
      invariant measure(run[n]) <= measure(run[0]) - n
    {
      assert next(run[n], run[n + 1]);
      n := n + 1;
    }
    assert inv(run[n]);
  }
}
