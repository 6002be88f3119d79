/** `hierarchical_mutex`: every mutex has a fixed value, every thread remembers the value
    of the mutex it locked last, and a lock is refused unless it goes strictly down.

    Threads run statement by statement. In the runs considered a thread calls `unlock` on a
    mutex it owns, or on one for which the call will be rejected; what an undisciplined call
    does up to the release itself is modelled too. */
module HierarchicalMutex {
  import opened Logs
  import opened Runs

  const ULONG_MAX: nat := 0xFFFF_FFFF_FFFF_FFFF

  datatype Point =
    | Idle
    | Waiting(m: nat)    // in `lock`, past the check, waiting for the internal mutex
    | Trying(m: nat)     // in `try_lock`, past the check
    | SavePrev(m: nat)   // owns the internal mutex, about to save the thread's value
    | SetValue(m: nat)   // about to take over the mutex's value
    | Release(m: nat)    // in `unlock`, value restored, about to release

  /** Per mutex its hierarchy value, saved previous value and owner; per thread its
      thread-local value, its point, the mutexes it holds in the order of locking, and the
      outcome of each finished call. */
  datatype State = State(
    values: seq<nat>, prev: seq<nat>, owner: seq<Option<nat>>,
    local: seq<nat>, points: seq<Point>,
    held: seq<seq<nat>>, outcomes: seq<seq<Outcome>>)

  datatype Outcome = Locked | Unlocked | Busy | LogicError

  datatype Action =
    | Lock(t: nat, m: nat)
    | TryLock(t: nat, m: nat)
    | Unlock(t: nat, m: nat)
    | Go(t: nat)

  ghost predicate Init(s: State) {
    && |s.prev| == |s.owner| == |s.values|
    && (forall m :: 0 <= m < |s.values| ==> s.values[m] <= ULONG_MAX)
    && s.prev == seq(|s.values|, _ => 0)
    && s.owner == seq(|s.values|, _ => None)
    && s.local == seq(|s.points|, _ => ULONG_MAX)
    && s.points == seq(|s.points|, _ => Idle)
    && s.held == seq(|s.points|, _ => [])
    && s.outcomes == seq(|s.points|, _ => [])
  }

  predicate Shape(s: State) {
    && |s.prev| == |s.owner| == |s.values|
    && |s.local| == |s.held| == |s.outcomes| == |s.points|
    && forall t :: 0 <= t < |s.points| ==> s.points[t].Idle? || s.points[t].m < |s.values|
  }

  predicate Enabled(s: State, a: Action) {
    && Shape(s)
    && a.t < |s.points|
    && match a
       case Lock(t, m) => s.points[t].Idle? && m < |s.values|
       case TryLock(t, m) => s.points[t].Idle? && m < |s.values|
       case Unlock(t, m) => s.points[t].Idle? && m < |s.values|
       case Go(t) =>
         && !s.points[t].Idle?
         && (s.points[t].Waiting? ==> s.owner[s.points[t].m] == None)
         && (s.points[t].Release? ==> s.owner[s.points[t].m] == Some(t))
  }

  /** The discipline the class asks of its callers: unlock what you own. */
  predicate Allowed(s: State, a: Action) {
    Enabled(s, a) && (a.Unlock? ==> s.owner[a.m] == Some(a.t) || s.local[a.t] != s.values[a.m])
  }

  /** Ends a call with an outcome. */
  function Finish(s: State, t: nat, o: Outcome): State
    requires t < |s.points| && t < |s.outcomes|
  {
    s.(points := s.points[t := Idle], outcomes := s.outcomes[t := s.outcomes[t] + [o]])
  }

  /** One statement; a thrown logic_error ends the call. */
  function Do(s: State, a: Action): State
    requires Enabled(s, a)
  {
    var t := a.t;
    match a
    case Lock(_, m) =>
      if s.local[t] <= s.values[m] then Finish(s, t, LogicError) else s.(points := s.points[t := Waiting(m)])
    case TryLock(_, m) =>
      if s.local[t] <= s.values[m] then Finish(s, t, LogicError) else s.(points := s.points[t := Trying(m)])
    case Unlock(_, m) =>
      if s.local[t] != s.values[m] then Finish(s, t, LogicError)
      else s.(local := s.local[t := s.prev[m]], points := s.points[t := Release(m)],
              held := s.held[t := if s.held[t] == [] then [] else s.held[t][..|s.held[t]| - 1]])
    case Go(_) =>
      match s.points[t]
      case Idle => s
      case Waiting(m) => s.(owner := s.owner[m := Some(t)], points := s.points[t := SavePrev(m)])
      case Trying(m) =>
        if s.owner[m] != None then Finish(s, t, Busy)
        else s.(owner := s.owner[m := Some(t)], points := s.points[t := SavePrev(m)])
      case SavePrev(m) => s.(prev := s.prev[m := s.local[t]], points := s.points[t := SetValue(m)])
      case SetValue(m) =>
        Finish(s, t, Locked).(local := s.local[t := s.values[m]], held := s.held[t := s.held[t] + [m]])
      case Release(m) => Finish(s, t, Unlocked).(owner := s.owner[m := None])
  }

  ghost predicate Next(s: State, t: State) {
    exists a :: Allowed(s, a) && t == Do(s, a)
  }

  // ----- the invariant

  /** The value a thread must carry while it holds a stack of mutexes. */
  function Top(values: seq<nat>, stack: seq<nat>): nat
    requires forall i :: 0 <= i < |stack| ==> stack[i] < |values|
  {
    if stack == [] then ULONG_MAX else values[stack[|stack| - 1]]
  }

  /** The held mutexes go strictly down from ULONG_MAX, and each saved the value above it. */
  ghost predicate Chained(s: State, stack: seq<nat>)
    requires |s.prev| == |s.values|
  {
    && (forall i :: 0 <= i < |stack| ==> stack[i] < |s.values|)
    && (stack != [] ==> s.prev[stack[0]] == ULONG_MAX)
    && (forall i, j :: 0 <= i < |stack| && 0 <= j < |stack| && j == i + 1 ==>
          s.prev[stack[j]] == s.values[stack[i]])
    && (forall i :: 0 <= i < |stack| ==> s.values[stack[i]] < ULONG_MAX)
    && (forall i, j :: 0 <= i < j < |stack| ==> s.values[stack[i]] > s.values[stack[j]])
  }

  /** The mutexes a thread holds are chained and its own, and it carries their top value. */
  ghost predicate StackInv(s: State, t: nat)
    requires Shape(s) && t < |s.points|
  {
    var stack := s.held[t];
    && Chained(s, stack)
    && s.local[t] == Top(s.values, stack)
    && (forall i :: 0 <= i < |stack| ==> s.owner[stack[i]] == Some(t))
  }

  /** What a thread relies on in the middle of a call. */
  ghost predicate PointInv(s: State, t: nat)
    requires Shape(s) && t < |s.points|
  {
    var (p, stack) := (s.points[t], s.held[t]);
    && (p.Waiting? || p.Trying? || p.SavePrev? || p.SetValue? ==> s.values[p.m] < s.local[t])
    && (p.SavePrev? || p.SetValue? || p.Release? ==> s.owner[p.m] == Some(t) && p.m !in stack)
    && (p.SetValue? ==> s.prev[p.m] == s.local[t])
  }

  ghost predicate ThreadInv(s: State, t: nat)
    requires Shape(s) && t < |s.points|
  {
    StackInv(s, t) && PointInv(s, t)
  }

  ghost predicate OwnerInv(s: State, m: nat)
    requires Shape(s) && m < |s.values|
  {
    s.owner[m].Some? ==>
      var t := s.owner[m].value;
      && t < |s.points|
      && (m in s.held[t] || s.points[t] == SavePrev(m) || s.points[t] == SetValue(m) || s.points[t] == Release(m))
  }

  ghost predicate Inv(s: State) {
    && Shape(s)
    && (forall m :: 0 <= m < |s.values| ==> s.values[m] <= ULONG_MAX)
    && (forall t: nat :: t < |s.points| ==> ThreadInv(s, t))
    && (forall m: nat :: m < |s.values| ==> OwnerInv(s, m))
  }

  lemma InitInv(s: State)
    requires Init(s)
    ensures Inv(s)
  {
    forall t: nat | t < |s.points| ensures ThreadInv(s, t) {}
  }

  /** What a step leaves alone: other threads, and mutexes owned by other threads. */
  ghost predicate Frame(s: State, a: Action, n: State)
    requires Shape(s) && a.t < |s.points|
  {
    && Shape(n) && n.values == s.values && |n.points| == |s.points|
    && (forall u :: 0 <= u < |s.points| && u != a.t ==>
          n.points[u] == s.points[u] && n.local[u] == s.local[u] && n.held[u] == s.held[u])
    && (forall m :: 0 <= m < |s.values| && s.owner[m].Some? && s.owner[m] != Some(a.t) ==>
          n.owner[m] == s.owner[m] && n.prev[m] == s.prev[m])
  }

  lemma StepFrame(s: State, a: Action)
    requires Inv(s) && Allowed(s, a)
    ensures Frame(s, a, Do(s, a))
  {
    assert ThreadInv(s, a.t);
  }

  lemma StepKeepsOther(s: State, a: Action, n: State, t: nat)
    requires Inv(s) && a.t < |s.points| && Frame(s, a, n) && t < |s.points| && t != a.t
    ensures ThreadInv(n, t)
  {
    assert ThreadInv(s, t);
  }

  /** A thread's stack depends on nothing but the values and what its own mutexes have saved. */
  lemma StackFrame(s: State, n: State, t: nat)
    requires Shape(s) && Shape(n) && n.values == s.values && t < |s.points| == |n.points|
    requires StackInv(s, t) && n.held[t] == s.held[t] && n.local[t] == s.local[t]
    requires forall m :: m in s.held[t] && m < |s.values| ==> n.prev[m] == s.prev[m] && n.owner[m] == s.owner[m]
    ensures StackInv(n, t)
  {
    forall i | 0 <= i < |s.held[t]|
      ensures n.prev[s.held[t][i]] == s.prev[s.held[t][i]] && n.owner[s.held[t][i]] == s.owner[s.held[t][i]]
    {
      assert s.held[t][i] in s.held[t];
    }
  }

  /** The top of a chain may be popped, and its saved value is the one to restore. */
  lemma PopKeepsChain(s: State, stack: seq<nat>)
    requires Shape(s) && Chained(s, stack) && stack != []
    ensures Chained(s, stack[..|stack| - 1]) && Top(s.values, stack[..|stack| - 1]) == s.prev[stack[|stack| - 1]]
    ensures stack[|stack| - 1] !in stack[..|stack| - 1]
  {
    var k := |stack| - 1;
    if k > 0 {
      assert s.prev[stack[k]] == s.values[stack[k - 1]];
    }
  }

  /** A mutex below the top that saved the top's value may be pushed. */
  lemma PushKeepsChain(s: State, stack: seq<nat>, m: nat)
    requires Shape(s) && Chained(s, stack) && m < |s.values|
    requires s.prev[m] == Top(s.values, stack) && s.values[m] < Top(s.values, stack)
    requires forall k :: 0 <= k < |s.values| ==> s.values[k] <= ULONG_MAX
    ensures Chained(s, stack + [m]) && Top(s.values, stack + [m]) == s.values[m]
  {
  }

  /** A call that goes past the check of `unlock` pops the thread's stack. */
  lemma UnlockPops(s: State, a: Action)
    requires Inv(s) && Allowed(s, a) && Shape(Do(s, a)) && a.Unlock? && s.local[a.t] == s.values[a.m]
    ensures StackInv(Do(s, a), a.t) && a.m !in Do(s, a).held[a.t]
  {
    assert ThreadInv(s, a.t);
    OwnerHoldsTop(s, a.t, a.m);
    PopKeepsChain(s, s.held[a.t]);
    hide Inv;
  }

  /** The last thing in acquiring a mutex, `update_hierarchy_value`, pushes it. */
  lemma SetValuePushes(s: State, a: Action)
    requires Inv(s) && Allowed(s, a) && Shape(Do(s, a)) && a.Go? && s.points[a.t].SetValue?
    ensures StackInv(Do(s, a), a.t)
  {
    assert ThreadInv(s, a.t);
    PushKeepsChain(s, s.held[a.t], s.points[a.t].m);
    hide Inv;
  }

  /** Every other step leaves the thread's stack alone. */
  lemma OthersKeepStack(s: State, a: Action)
    requires Inv(s) && Allowed(s, a) && Shape(Do(s, a))
    requires !(a.Unlock? && s.local[a.t] == s.values[a.m]) && !(a.Go? && s.points[a.t].SetValue?)
    ensures StackInv(Do(s, a), a.t)
  {
    assert ThreadInv(s, a.t);
    hide Inv, StackInv, Chained, Top;
    StackFrame(s, Do(s, a), a.t);
  }

  lemma CallKeepsPoint(s: State, a: Action)
    requires Inv(s) && Allowed(s, a) && Shape(Do(s, a)) && !a.Go?
    ensures PointInv(Do(s, a), a.t)
  {
    assert ThreadInv(s, a.t);
    if a.Unlock? && s.local[a.t] == s.values[a.m] {
      UnlockPops(s, a);
    }
    hide Inv, StackInv;
  }

  lemma StatementKeepsPoint(s: State, a: Action)
    requires Inv(s) && Allowed(s, a) && Shape(Do(s, a)) && a.Go?
    ensures PointInv(Do(s, a), a.t)
  {
    assert ThreadInv(s, a.t);
    FreeIsNotHeld(s, a.t, s.points[a.t].m);
    hide Inv, StackInv;
  }

  lemma FreeIsNotHeld(s: State, t: nat, m: nat)
    requires Inv(s) && t < |s.points| && m < |s.values|
    ensures s.owner[m] == None ==> m !in s.held[t]
  {
    assert ThreadInv(s, t);
  }

  lemma StepKeepsSelf(s: State, a: Action)
    requires Inv(s) && Allowed(s, a) && Shape(Do(s, a))
    ensures ThreadInv(Do(s, a), a.t)
  {
    if a.Go? { StatementKeepsPoint(s, a); } else { CallKeepsPoint(s, a); }
    if a.Unlock? && s.local[a.t] == s.values[a.m] {
      UnlockPops(s, a);
    } else if a.Go? && s.points[a.t].SetValue? {
      SetValuePushes(s, a);
    } else {
      OthersKeepStack(s, a);
    }
    hide Do, Inv, StackInv, PointInv;
  }

  lemma InAllButTop(stack: seq<nat>, m: nat)
    requires m in stack && m != stack[|stack| - 1]
    ensures m in stack[..|stack| - 1]
  {
    var i :| 0 <= i < |stack| && stack[i] == m;
    assert stack[..|stack| - 1][i] == m;
  }

  lemma StepKeepsOwn(s: State, a: Action, m: nat)
    requires Inv(s) && Allowed(s, a) && Shape(Do(s, a)) && m < |s.values|
    requires s.owner[m] == None || s.owner[m] == Some(a.t)
    ensures OwnerInv(Do(s, a), m)
  {
    assert OwnerInv(s, m);
    if a.Unlock? && s.local[a.t] == s.values[a.m] {
      OwnerHoldsTop(s, a.t, a.m);
      if m in s.held[a.t] && m != a.m {
        InAllButTop(s.held[a.t], m);
      }
    }
    hide Inv;
  }

  lemma StepKeepsOwner(s: State, a: Action, m: nat)
    requires Inv(s) && Allowed(s, a) && Frame(s, a, Do(s, a)) && m < |s.values|
    ensures OwnerInv(Do(s, a), m)
  {
    assert OwnerInv(s, m);
    if s.owner[m] == None || s.owner[m] == Some(a.t) {
      StepKeepsOwn(s, a, m);
    } else {
      hide Do, Inv;
    }
  }

  lemma StepInv(s: State, a: Action)
    requires Inv(s) && Allowed(s, a)
    ensures Inv(Do(s, a))
  {
    StepFrame(s, a);
    StepKeepsSelf(s, a);
    var n := Do(s, a);
    forall t: nat | t < |n.points| ensures ThreadInv(n, t) {
      if t != a.t {
        StepKeepsOther(s, a, n, t);
      }
    }
    forall m: nat | m < |n.values| ensures OwnerInv(n, m) { StepKeepsOwner(s, a, m); }
  }

  lemma EveryRunIsInvariant(run: seq<State>)
    requires IsRun(Init, Next, run)
    ensures forall k :: 0 <= k < |run| ==> Inv(run[k])
  {
    forall s | Init(s) ensures Inv(s) { InitInv(s); }
    forall s, t | Inv(s) && Next(s, t) ensures Inv(t) {
      var a :| Allowed(s, a) && t == Do(s, a);
      StepInv(s, a);
    }
    Invariance(Init, Next, Inv, run);
  }

  // ----- the discipline of one thread

  /** An idle owner passes the check of `unlock` exactly for the mutex it locked last. */
  lemma OwnerHoldsTop(s: State, t: nat, m: nat)
    requires Inv(s) && t < |s.points| && s.points[t].Idle? && m < |s.values| && s.owner[m] == Some(t)
    ensures m in s.held[t]
    ensures s.local[t] == s.values[m] <==> s.held[t][|s.held[t]| - 1] == m
  {
    assert OwnerInv(s, m) && ThreadInv(s, t);
    var i :| 0 <= i < |s.held[t]| && s.held[t][i] == m;
  }

  /** A lock is admitted exactly when the mutex lies below ULONG_MAX and strictly below
      every mutex the thread holds. */
  lemma AdmittedExactlyBelowAllHeld(s: State, t: nat, m: nat)
    requires Inv(s) && t < |s.points| && m < |s.values|
    ensures s.local[t] > s.values[m] <==>
      s.values[m] < ULONG_MAX && forall h :: h in s.held[t] ==> h < |s.values| && s.values[h] > s.values[m]
  {
    assert ThreadInv(s, t);
    var stack := s.held[t];
    if stack != [] {
      assert stack[|stack| - 1] in stack;
    }
  }

  predicate Step(s: State, a: Action, n: State) {
    Enabled(s, a) && n == Do(s, a)
  }

  /** Locking and then unlocking a mutex, undisturbed, restores the thread's value and
      stack and leaves the mutex free; the mutex alone remembers the value it saved. */
  lemma UnlockUndoesLock(s: State, t: nat, m: nat)
    returns (asked: State, taken: State, saved: State, locked: State, released: State, n: State)
    requires Inv(s) && t < |s.points| && m < |s.values| && s.points[t].Idle?
    requires s.local[t] > s.values[m] && s.owner[m] == None
    ensures Step(s, Lock(t, m), asked) && Step(asked, Go(t), taken) && Step(taken, Go(t), saved)
    ensures Step(saved, Go(t), locked)
    ensures locked.owner == s.owner[m := Some(t)] && locked.local == s.local[t := s.values[m]]
    ensures Step(locked, Unlock(t, m), released) && Step(released, Go(t), n)
    ensures n.owner == s.owner && n.local == s.local && n.held == s.held && n.points == s.points
    ensures n.prev == s.prev[m := s.local[t]]
    ensures n.outcomes == s.outcomes[t := s.outcomes[t] + [Locked, Unlocked]]
  {
    asked := Do(s, Lock(t, m));
    taken := Do(asked, Go(t));
    saved := Do(taken, Go(t));
    locked := Do(saved, Go(t));
    released := Do(locked, Unlock(t, m));
    n := Do(released, Go(t));
    assert n.held[t] == s.held[t];
    assert n.outcomes[t] == s.outcomes[t] + [Locked, Unlocked];
  }

  /** The check of `unlock` looks at values only: a thread passes it for any mutex whose
      value equals that of the one it locked last, owned or not. */
  lemma UnlockChecksValuesOnly(s: State, t: nat, m: nat)
    requires Inv(s) && t < |s.points| && m < |s.values|
    ensures s.local[t] == s.values[m] <==>
      if s.held[t] == [] then s.values[m] == ULONG_MAX
      else (var top := s.held[t][|s.held[t]| - 1]; top < |s.values| && s.values[top] == s.values[m])
  {
    assert ThreadInv(s, t);
  }

  /** A value that must not be locked above the mutexes on a stack. */
  ghost predicate TooHigh(s: State, stack: seq<nat>, value: nat) {
    value >= ULONG_MAX || exists h :: h in stack && (h >= |s.values| || s.values[h] <= value)
  }

  /** A call that goes against the hierarchy of the mutexes the thread holds. */
  ghost predicate AgainstTheHierarchy(s: State, a: Action)
    requires Enabled(s, a) && !a.Go?
  {
    var (value, stack) := (s.values[a.m], s.held[a.t]);
    match a
    case Unlock(_, _) =>
      if stack == [] then value != ULONG_MAX
      else (var top := stack[|stack| - 1]; top >= |s.values| || s.values[top] != value)
    case Lock(_, _) => TooHigh(s, stack, value)
    case TryLock(_, _) => TooHigh(s, stack, value)
  }

  /** A call throws logic_error exactly when it goes against the hierarchy, and then it
      changes nothing, whatever mutex it was called on; otherwise it goes on. */
  lemma RejectedCallsChangeNothing(s: State, a: Action)
    requires Inv(s) && Enabled(s, a) && !a.Go?
    ensures AgainstTheHierarchy(s, a) ==> Do(s, a) == s.(outcomes := s.outcomes[a.t := s.outcomes[a.t] + [LogicError]])
    ensures !AgainstTheHierarchy(s, a) ==> Do(s, a).outcomes == s.outcomes && !Do(s, a).points[a.t].Idle?
  {
    AdmittedExactlyBelowAllHeld(s, a.t, a.m);
    UnlockChecksValuesOnly(s, a.t, a.m);
    assert s.points[a.t := Idle] == s.points;
  }

  /** An idle thread would pass the check of `unlock` on a mutex it does not own. */
  predicate PassesUnowned(s: State, t: nat, m: nat) {
    && Shape(s) && t < |s.points| && s.points[t].Idle? && m < |s.values|
    && s.owner[m] != Some(t) && s.local[t] == s.values[m]
  }

  ghost predicate CanPassUnowned(values: seq<nat>, threads: nat) {
    exists run, t, m :: IsRun(Init, Next, run) && EndsUnowned(run, t, m, values, threads)
  }

  ghost predicate EndsUnowned(run: seq<State>, t: nat, m: nat, values: seq<nat>, threads: nat) {
    |run| > 0 && run[0].values == values && |run[0].points| == threads && PassesUnowned(Last(run), t, m)
  }

  predicate Distinct(values: seq<nat>) {
    forall m, k :: 0 <= m < k < |values| ==> values[m] != values[k]
  }

  /** Threads that keep the discipline can come to a point where `unlock` would accept a
      mutex they do not own exactly if the mutexes do not have distinct values below
      ULONG_MAX. */
  lemma UnownedUnlockPassesExactlyOnEqualValues(values: seq<nat>, threads: nat)
    requires threads > 0 && forall m :: 0 <= m < |values| ==> values[m] <= ULONG_MAX
    ensures CanPassUnowned(values, threads) <==>
      !(Distinct(values) && forall m :: 0 <= m < |values| ==> values[m] < ULONG_MAX)
  {
    if m: nat :| m < |values| && values[m] == ULONG_MAX {
      var s := Start(values, threads);
      assert EndsUnowned([s], 0, m, values, threads);
    } else if m: nat, k: nat :| m < k < |values| && values[m] == values[k] {
      var run := LockFirst(values, threads, m);
      assert EndsUnowned(run, 0, k, values, threads);
    } else {
      forall run, t, m | IsRun(Init, Next, run) && EndsUnowned(run, t, m, values, threads) ensures false {
        EveryRunIsInvariant(run);
        ValuesAreFixed(run);
        PassingMeansEqual(Last(run), t, m);
      }
    }
  }

  lemma PassingMeansEqual(s: State, t: nat, m: nat)
    requires Inv(s) && PassesUnowned(s, t, m)
    ensures s.values[m] == ULONG_MAX || exists k :: 0 <= k < |s.values| && k != m && s.values[k] == s.values[m]
  {
    assert ThreadInv(s, t);
    var stack := s.held[t];
    if stack != [] {
      assert s.owner[stack[|stack| - 1]] == Some(t);
    }
  }

  lemma {:induction false} ValuesAreFixed(run: seq<State>)
    requires IsRun(Init, Next, run)
    ensures Last(run).values == run[0].values
  {
    if |run| > 1 {
      ValuesAreFixed(run[..|run| - 1]);
      assert Next(run[|run| - 2], Last(run));
    }
  }

  lemma Start(values: seq<nat>, threads: nat) returns (s: State)
    requires forall m :: 0 <= m < |values| ==> values[m] <= ULONG_MAX
    ensures Init(s) && Shape(s) && s.values == values && |s.points| == threads
  {
    s := State(values, seq(|values|, _ => 0), seq(|values|, _ => None), seq(threads, _ => ULONG_MAX),
               seq(threads, _ => Idle), seq(threads, _ => []), seq(threads, _ => []));
  }

  /** The first thread locks one mutex. */
  lemma LockFirst(values: seq<nat>, threads: nat, m: nat) returns (run: seq<State>)
    requires threads > 0 && m < |values| && forall k :: 0 <= k < |values| ==> values[k] < ULONG_MAX
    ensures IsRun(Init, Next, run) && run[0].values == values && |run[0].points| == threads
    ensures var s := Last(run);
      && Shape(s) && |s.points| == threads && s.points[0].Idle? && s.values == values && s.local[0] == values[m]
      && forall k :: 0 <= k < |values| && k != m ==> s.owner[k] == None
  {
    var s := Start(values, threads);
    run := Extend(Init, Next, [s], Do(s, Lock(0, m)));
    run := Extend(Init, Next, run, Do(Last(run), Go(0)));
    run := Extend(Init, Next, run, Do(Last(run), Go(0)));
    run := Extend(Init, Next, run, Do(Last(run), Go(0)));
  }

  // ----- what was called, and what it was told

  /** Undisturbed, a `try_lock` that passes the check comes back busy with nothing changed if
      the mutex is owned. */
  lemma TryLockOnOwned(s: State, t: nat, m: nat) returns (asked: State, n: State)
    requires Inv(s) && t < |s.points| && m < |s.values| && s.points[t].Idle? && s.local[t] > s.values[m]
    requires s.owner[m] != None
    ensures Step(s, TryLock(t, m), asked) && Step(asked, Go(t), n)
    ensures n == s.(outcomes := s.outcomes[t := s.outcomes[t] + [Busy]])
  {
    asked := Do(s, TryLock(t, m));
    n := Do(asked, Go(t));
    assert n.points == s.points;
  }

  /** And it gets a free one, on top of the thread's stack. */
  lemma TryLockOnFree(s: State, t: nat, m: nat) returns (asked: State, taken: State, saved: State, n: State)
    requires Inv(s) && t < |s.points| && m < |s.values| && s.points[t].Idle? && s.local[t] > s.values[m]
    requires s.owner[m] == None
    ensures Step(s, TryLock(t, m), asked) && Step(asked, Go(t), taken) && Step(taken, Go(t), saved)
    ensures Step(saved, Go(t), n)
    ensures n.owner == s.owner[m := Some(t)] && n.local == s.local[t := s.values[m]]
    ensures n.held == s.held[t := s.held[t] + [m]] && n.points == s.points
    ensures n.outcomes == s.outcomes[t := s.outcomes[t] + [Locked]]
  {
    asked := Do(s, TryLock(t, m));
    taken := Do(asked, Go(t));
    saved := Do(taken, Go(t));
    n := Do(saved, Go(t));
    assert n.points == s.points;
  }

  /** What a step tells its caller is so: Locked to the new owner with the mutex on top of its
      stack, Unlocked when the mutex has become free, Busy only to a `try_lock` on a mutex
      somebody else owns, with nothing changed, and logic_error only against the hierarchy. */
  ghost predicate IsHonest(s: State, a: Action, n: State, o: seq<Outcome>)
    requires Shape(s) && Enabled(s, a)
  {
    var (t, p) := (a.t, s.points[a.t]);
    && |o| <= 1 && Shape(n) && |n.points| == |s.points| && n.outcomes == s.outcomes[t := s.outcomes[t] + o]
    && (o == [Locked] ==>
          && !p.Idle? && n.held == s.held[t := s.held[t] + [p.m]] && n.owner == s.owner && n.owner[p.m] == Some(t)
          && n.local == s.local[t := s.values[p.m]] && n.points[t].Idle?)
    && (o == [Unlocked] ==>
          && p.Release? && s.owner[p.m] == Some(t) && n.owner == s.owner[p.m := None]
          && n.held == s.held && p.m !in n.held[t])
    && (o == [Busy] ==>
          && p.Trying? && s.owner[p.m].Some? && s.owner[p.m] != Some(t)
          && n == s.(points := s.points[t := Idle], outcomes := n.outcomes))
    && (o == [LogicError] ==> !a.Go? && AgainstTheHierarchy(s, a) && n == s.(outcomes := n.outcomes))
    && (a.Go? && p.Trying? ==>
          if s.owner[p.m] == None then o == [] && n.owner == s.owner[p.m := Some(t)] else o == [Busy])
  }

  lemma NothingTold(outcomes: seq<seq<Outcome>>, t: nat)
    requires t < |outcomes|
    ensures outcomes[t := outcomes[t] + []] == outcomes
  {
    assert outcomes[t] + [] == outcomes[t];
  }

  lemma StatementIsHonest(s: State, a: Action) returns (o: seq<Outcome>)
    requires Inv(s) && Allowed(s, a) && a.Go?
    ensures IsHonest(s, a, Do(s, a), o)
  {
    var p := s.points[a.t];
    StepFrame(s, a);
    assert ThreadInv(s, a.t);
    o := match p
      case SetValue(_) => [Locked]
      case Release(_) => [Unlocked]
      case Trying(m) => if s.owner[m] != None then [Busy] else []
      case _ => [];
    if p.Trying? && s.owner[p.m] == Some(a.t) {
      assert OwnerInv(s, p.m);
      TryingIsNotHeld(s, a.t);
    }
    NothingTold(s.outcomes, a.t);
    hide Inv, StackInv;
  }

  lemma OutcomesAreHonest(s: State, a: Action) returns (o: seq<Outcome>)
    requires Inv(s) && Allowed(s, a)
    ensures IsHonest(s, a, Do(s, a), o)
  {
    if a.Go? {
      o := StatementIsHonest(s, a);
    } else {
      StepFrame(s, a);
      RejectedCallsChangeNothing(s, a);
      NothingTold(s.outcomes, a.t);
      o := if AgainstTheHierarchy(s, a) then [LogicError] else [];
      hide Inv, Do, AgainstTheHierarchy;
    }
  }

  lemma TryingIsNotHeld(s: State, t: nat)
    requires Inv(s) && t < |s.points| && s.points[t].Trying?
    ensures s.points[t].m !in s.held[t]
  {
    assert ThreadInv(s, t);
    AdmittedExactlyBelowAllHeld(s, t, s.points[t].m);
  }

  datatype Kind = Locking | TryLocking | Unlocking

  datatype Request = Request(kind: Kind, m: nat)

  function Requested(a: Action): seq<Request> {
    match a
    case Lock(_, m) => [Request(Locking, m)]
    case TryLock(_, m) => [Request(TryLocking, m)]
    case Unlock(_, m) => [Request(Unlocking, m)]
    case Go(_) => []
  }

  /** The calls among some actions. */
  function Calls(acts: seq<Action>): Log<Request> {
    if acts == [] then [] else
    var a := acts[|acts| - 1];
    Calls(acts[..|acts| - 1]) + Tagged(a.t, Requested(a))
  }

  lemma CallsOneMore(done: seq<Action>, a: Action)
    ensures Calls(done + [a]) == Calls(done) + Tagged(a.t, Requested(a))
  {
    assert (done + [a])[..|done + [a]| - 1] == done;
  }

  /** The mutexes held after some calls with these outcomes, or None if they are not outcomes
      the calls can have: only a lock or try_lock locks, only a try_lock is busy, and only
      the mutex locked last is unlocked. */
  function Replay(calls: seq<Request>, outcomes: seq<Outcome>): Option<seq<nat>> {
    if outcomes == [] then Some([]) else
    var k := |outcomes| - 1;
    if k >= |calls| then None else
    match Replay(calls, outcomes[..k])
    case None => None
    case Some(stack) => After(stack, calls[k], outcomes[k])
  }

  function After(stack: seq<nat>, call: Request, o: Outcome): Option<seq<nat>> {
    match o
    case Locked => if call.kind.Unlocking? then None else Some(stack + [call.m])
    case Busy => if call.kind.TryLocking? then Some(stack) else None
    case Unlocked =>
      if call.kind.Unlocking? && stack != [] && stack[|stack| - 1] == call.m then Some(stack[..|stack| - 1]) else None
    case LogicError => Some(stack)
  }

  /** Whether a thread may stand at a point in the middle of a call. */
  predicate Performs(p: Point, call: Request) {
    match p
    case Idle => false
    case Waiting(m) => call == Request(Locking, m)
    case Trying(m) => call == Request(TryLocking, m)
    case SavePrev(m) => !call.kind.Unlocking? && call.m == m
    case SetValue(m) => !call.kind.Unlocking? && call.m == m
    case Release(m) => call == Request(Unlocking, m)
  }

  /** What a thread held when its current call began. */
  function HeldBefore(held: seq<nat>, p: Point): seq<nat> {
    if p.Release? then held + [p.m] else held
  }

  /** The outcomes are those of the thread's calls, one by one; replaying them gives what it
      holds; and it stands in the middle of the one call that has no outcome yet, if any. */
  ghost predicate CallsMatch(calls: seq<Request>, outcomes: seq<Outcome>, held: seq<nat>, p: Point) {
    && |calls| == |outcomes| + (if p.Idle? then 0 else 1)
    && Replay(calls, outcomes) == Some(HeldBefore(held, p))
    && (!p.Idle? ==> Performs(p, calls[|outcomes|]))
  }

  lemma {:induction false} ReplayLonger(calls: seq<Request>, more: Request, outcomes: seq<Outcome>)
    requires |outcomes| <= |calls|
    ensures Replay(calls + [more], outcomes) == Replay(calls, outcomes)
  {
    if outcomes != [] {
      ReplayLonger(calls, more, outcomes[..|outcomes| - 1]);
    }
  }

  lemma ReplayOneMore(calls: seq<Request>, outcomes: seq<Outcome>, o: Outcome)
    requires |outcomes| < |calls| && Replay(calls, outcomes).Some?
    ensures Replay(calls, outcomes + [o]) == After(Replay(calls, outcomes).value, calls[|outcomes|], o)
  {
    assert (outcomes + [o])[..|outcomes|] == outcomes;
  }

  ghost predicate ThreadAnswered(s: State, done: seq<Action>, t: nat)
    requires t < |s.points|
  {
    t < |s.outcomes| && t < |s.held| && CallsMatch(Of(Calls(done), t), s.outcomes[t], s.held[t], s.points[t])
  }

  lemma MatchGoesOn(calls: seq<Request>, outcomes: seq<Outcome>, held: seq<nat>, p: Point, q: Point)
    requires CallsMatch(calls, outcomes, held, p) && !p.Idle? && !q.Idle?
    requires HeldBefore(held, q) == HeldBefore(held, p)
    requires forall call :: Performs(p, call) ==> Performs(q, call)
    ensures CallsMatch(calls, outcomes, held, q)
  {
  }

  lemma MatchEnds(calls: seq<Request>, outcomes: seq<Outcome>, held: seq<nat>, p: Point, o: Outcome, after: seq<nat>)
    requires CallsMatch(calls, outcomes, held, p) && !p.Idle?
    requires forall call :: Performs(p, call) ==> After(HeldBefore(held, p), call, o) == Some(after)
    ensures CallsMatch(calls, outcomes + [o], after, Idle)
  {
    hide Replay, After, Performs;
    ReplayOneMore(calls, outcomes, o);
  }

  lemma MatchBegins(calls: seq<Request>, outcomes: seq<Outcome>, held: seq<nat>, call: Request,
                    after: seq<nat>, q: Point)
    requires CallsMatch(calls, outcomes, held, Idle) && Performs(q, call) && HeldBefore(after, q) == held
    ensures CallsMatch(calls + [call], outcomes, after, q)
  {
    ReplayLonger(calls, call, outcomes);
  }

  lemma MatchRejected(calls: seq<Request>, outcomes: seq<Outcome>, held: seq<nat>, call: Request)
    requires CallsMatch(calls, outcomes, held, Idle)
    ensures CallsMatch(calls + [call], outcomes + [LogicError], held, Idle)
  {
    ReplayLonger(calls, call, outcomes);
    ReplayOneMore(calls + [call], outcomes, LogicError);
  }

  lemma PopAndPush(stack: seq<nat>, m: nat)
    ensures (stack + [m])[..|stack|] == stack
    ensures stack != [] ==> stack[..|stack| - 1] + [stack[|stack| - 1]] == stack
  {
  }

  lemma LockEnds(calls: seq<Request>, outcomes: seq<Outcome>, held: seq<nat>, m: nat)
    requires CallsMatch(calls, outcomes, held, SetValue(m))
    ensures CallsMatch(calls, outcomes + [Locked], held + [m], Idle)
  {
    MatchEnds(calls, outcomes, held, SetValue(m), Locked, held + [m]);
  }

  lemma UnlockEnds(calls: seq<Request>, outcomes: seq<Outcome>, held: seq<nat>, m: nat)
    requires CallsMatch(calls, outcomes, held, Release(m))
    ensures CallsMatch(calls, outcomes + [Unlocked], held, Idle)
  {
    PopAndPush(held, m);
    MatchEnds(calls, outcomes, held, Release(m), Unlocked, held);
  }

  lemma TryLockEnds(calls: seq<Request>, outcomes: seq<Outcome>, held: seq<nat>, m: nat)
    requires CallsMatch(calls, outcomes, held, Trying(m))
    ensures CallsMatch(calls, outcomes + [Busy], held, Idle)
  {
    MatchEnds(calls, outcomes, held, Trying(m), Busy, held);
  }

  lemma LockGoesOn(calls: seq<Request>, outcomes: seq<Outcome>, held: seq<nat>, p: Point, q: Point)
    requires CallsMatch(calls, outcomes, held, p)
    requires ((p.Waiting? || p.Trying?) && q == SavePrev(p.m)) || (p.SavePrev? && q == SetValue(p.m))
    ensures CallsMatch(calls, outcomes, held, q)
  {
    MatchGoesOn(calls, outcomes, held, p, q);
  }

  /** A statement goes on with the call or ends it. */
  lemma StatementMatches(s: State, a: Action, calls: seq<Request>)
    requires Inv(s) && Allowed(s, a) && a.Go? && CallsMatch(calls, s.outcomes[a.t], s.held[a.t], s.points[a.t])
    ensures var n := Do(s, a); Shape(n) && CallsMatch(calls, n.outcomes[a.t], n.held[a.t], n.points[a.t])
  {
    StepFrame(s, a);
    var p, outcomes, held := s.points[a.t], s.outcomes[a.t], s.held[a.t];
    hide Inv, CallsMatch;
    match p
    case SetValue(m) => LockEnds(calls, outcomes, held, m);
    case Release(m) => UnlockEnds(calls, outcomes, held, m);
    case Trying(m) =>
      if s.owner[m] != None {
        TryLockEnds(calls, outcomes, held, m);
      } else {
        LockGoesOn(calls, outcomes, held, p, SavePrev(m));
      }
    case Waiting(m) => LockGoesOn(calls, outcomes, held, p, SavePrev(m));
    case SavePrev(m) => LockGoesOn(calls, outcomes, held, p, SetValue(m));
  }

  /** A call begins, or is rejected at once. */
  lemma CallMatches(s: State, a: Action, calls: seq<Request>)
    requires Inv(s) && Allowed(s, a) && !a.Go? && CallsMatch(calls, s.outcomes[a.t], s.held[a.t], s.points[a.t])
    ensures var n := Do(s, a); Shape(n) && CallsMatch(calls + Requested(a), n.outcomes[a.t], n.held[a.t], n.points[a.t])
  {
    StepFrame(s, a);
    var n, t := Do(s, a), a.t;
    var outcomes, held, call := s.outcomes[t], s.held[t], Requested(a)[0];
    if a.Unlock? && s.local[t] == s.values[a.m] {
      OwnerHoldsTop(s, t, a.m);
      PopAndPush(held, a.m);
    }
    hide Inv, CallsMatch, OwnerInv, ThreadInv;
    if n.points[t].Idle? {
      MatchRejected(calls, outcomes, held, call);
    } else {
      MatchBegins(calls, outcomes, held, call, n.held[t], n.points[t]);
    }
  }

  lemma SelfAnswered(s: State, done: seq<Action>, a: Action)
    requires Inv(s) && Allowed(s, a) && Frame(s, a, Do(s, a)) && ThreadAnswered(s, done, a.t)
    ensures ThreadAnswered(Do(s, a), done + [a], a.t)
  {
    var calls := Of(Calls(done), a.t);
    CallsOneMore(done, a);
    OfTagged(Calls(done), a.t, Requested(a), a.t);
    hide Inv, Do, Allowed, Calls, Of, Tagged, CallsMatch;
    if a.Go? {
      assert calls + Requested(a) == calls;
      StatementMatches(s, a, calls);
    } else {
      CallMatches(s, a, calls);
    }
  }

  lemma OtherAnswered(s: State, done: seq<Action>, a: Action, n: State, u: nat)
    requires Shape(s) && a.t < |s.points| && Frame(s, a, n) && u < |s.points| && u != a.t && ThreadAnswered(s, done, u)
    requires n.outcomes[u] == s.outcomes[u]
    ensures ThreadAnswered(n, done + [a], u)
  {
    CallsOneMore(done, a);
    OfTagged(Calls(done), a.t, Requested(a), u);
    hide Calls, Of, Tagged, CallsMatch;
    assert Of(Calls(done + [a]), u) == Of(Calls(done), u);
  }

  ghost predicate Answered(s: State, done: seq<Action>) {
    forall t: nat :: t < |s.points| ==> ThreadAnswered(s, done, t)
  }

  lemma StepAnswered(s: State, done: seq<Action>, a: Action)
    requires Inv(s) && Allowed(s, a) && Answered(s, done)
    ensures Answered(Do(s, a), done + [a])
  {
    var n := Do(s, a);
    StepFrame(s, a);
    SelfAnswered(s, done, a);
    var o := OutcomesAreHonest(s, a);
    hide Do, Allowed, ThreadAnswered, Inv;
    forall u: nat | u < |n.points| ensures ThreadAnswered(n, done + [a], u) {
      if u != a.t { OtherAnswered(s, done, a, n, u); }
    }
  }

  ghost predicate Taken(s: State, a: Action, n: State) {
    Allowed(s, a) && n == Do(s, a)
  }

  /** In every trace the outcomes a thread was told are, one by one, possible outcomes of its
      calls, what it holds is what they say, it owns all of it, and a `try_lock` never waits. */
  lemma EveryCallIsAnswered(run: seq<State>, acts: seq<Action>, t: nat)
    requires IsTrace(Init, Taken, run, acts) && t < |Last(run).points|
    ensures var s := Last(run);
      && t < |s.outcomes| && t < |s.held| && CallsMatch(Of(Calls(acts), t), s.outcomes[t], s.held[t], s.points[t])
      && forall m :: m in s.held[t] ==> m < |s.owner| && s.owner[m] == Some(t)
    ensures var (s, calls) := (Last(run), Of(Calls(acts), t));
      calls != [] && calls[|calls| - 1].kind.TryLocking? ==> !Blocked(s, t)
  {
    var inv := (s: State, done: seq<Action>) => Inv(s) && Answered(s, done);
    forall s | Init(s) ensures inv(s, []) {
      InitInv(s);
    }
    forall s, done, a, t | inv(s, done) && Taken(s, a, t) ensures inv(t, done + [a]) {
      StepInv(s, a);
      StepAnswered(s, done, a);
    }
    hide Init, Taken, Inv, Answered;
    TraceInvariance(Init, Taken, inv, run, acts);
    AnsweredMeans(Last(run), acts, t);
  }

  lemma AnsweredMeans(s: State, done: seq<Action>, t: nat)
    requires Inv(s) && Answered(s, done) && t < |s.points|
    ensures t < |s.outcomes| && t < |s.held| && CallsMatch(Of(Calls(done), t), s.outcomes[t], s.held[t], s.points[t])
    ensures forall m :: m in s.held[t] ==> m < |s.owner| && s.owner[m] == Some(t)
    ensures var calls := Of(Calls(done), t);
      calls != [] && calls[|calls| - 1].kind.TryLocking? ==> !Blocked(s, t)
  {
    assert ThreadAnswered(s, done, t) && ThreadInv(s, t);
    forall m | m in s.held[t] ensures m < |s.owner| && s.owner[m] == Some(t) {
      var i :| 0 <= i < |s.held[t]| && s.held[t][i] == m;
    }
  }

  // ----- no deadlock

  /** Thread t waits for a mutex that thread u owns. */
  predicate WaitsFor(s: State, t: nat, u: nat) {
    && t < |s.points| && s.points[t].Waiting? && s.points[t].m < |s.owner|
    && s.owner[s.points[t].m] == Some(u)
  }

  ghost predicate IsWaitPath(s: State, path: seq<nat>) {
    forall i, j :: 0 <= i < |path| && 0 <= j < |path| && j == i + 1 ==> WaitsFor(s, path[i], path[j])
  }

  /** Along a path of waiting threads the awaited values go strictly down. */
  lemma WaitingGoesDown(s: State, t: nat, u: nat)
    requires Inv(s) && WaitsFor(s, t, u) && u < |s.points| && s.points[u].Waiting?
    ensures s.values[s.points[u].m] < s.values[s.points[t].m]
  {
    var m := s.points[t].m;
    assert OwnerInv(s, m) && ThreadInv(s, u);
    var i :| 0 <= i < |s.held[u]| && s.held[u][i] == m;
  }

  lemma {:induction false} PathGoesDown(s: State, path: seq<nat>)
    requires Inv(s) && IsWaitPath(s, path) && |path| >= 2
    requires path[|path| - 1] < |s.points| && s.points[path[|path| - 1]].Waiting?
    ensures WaitsFor(s, path[0], path[1])
    ensures s.values[s.points[path[|path| - 1]].m] < s.values[s.points[path[0]].m]
  {
    if |path| == 2 {
      WaitingGoesDown(s, path[0], path[1]);
    } else {
      assert WaitsFor(s, path[0], path[1]) && WaitsFor(s, path[1], path[2]);
      PathGoesDown(s, path[1..]);
      WaitingGoesDown(s, path[0], path[1]);
    }
  }

  /** The wait-for graph has no cycle. */
  lemma NoCycle(s: State, path: seq<nat>)
    requires Inv(s) && IsWaitPath(s, path) && |path| >= 2
    ensures path[0] != path[|path| - 1]
  {
    assert WaitsFor(s, path[0], path[1]);
    if path[0] == path[|path| - 1] {
      PathGoesDown(s, path);
    }
  }

  predicate Blocked(s: State, t: nat) {
    && t < |s.points| && s.points[t].Waiting? && s.points[t].m < |s.owner|
    && s.owner[s.points[t].m] != None
  }

  predicate Holder(s: State, t: nat) {
    t < |s.points| && exists m :: 0 <= m < |s.owner| && s.owner[m] == Some(t)
  }

  /** Following the owners from a blocked thread ends at one that is not blocked. */
  lemma SomeHolderCanMove(s: State, t: nat) returns (u: nat)
    requires Inv(s) && Blocked(s, t)
    ensures Holder(s, u) && !Blocked(s, u)
    decreases s.values[s.points[t].m]
  {
    var m := s.points[t].m;
    u := s.owner[m].value;
    assert OwnerInv(s, m);
    if Blocked(s, u) {
      WaitingGoesDown(s, t, u);
      u := SomeHolderCanMove(s, u);
    }
  }

  /** In every state of every run the wait-for graph is acyclic, and whenever a thread is
      blocked some lock holder is not. */
  lemma NeverDeadlocked(run: seq<State>, k: nat)
    requires IsRun(Init, Next, run) && k < |run|
    ensures forall path :: IsWaitPath(run[k], path) && |path| >= 2 ==> path[0] != path[|path| - 1]
    ensures (exists t :: Blocked(run[k], t)) ==> exists u :: Holder(run[k], u) && !Blocked(run[k], u)
  {
    EveryRunIsInvariant(run);
    var s := run[k];
    assert Inv(s);
    forall path | IsWaitPath(s, path) && |path| >= 2 ensures path[0] != path[|path| - 1] {
      NoCycle(s, path);
    }
    if t :| Blocked(s, t) {
      var u := SomeHolderCanMove(s, t);
    }
  }

  // ----- the program

  class Mutex {
    const hierarchyValue: nat
    var previousValue: nat
    var internalMutex: Option<nat>

    constructor (value: nat)
      ensures hierarchyValue == value && previousValue == 0 && internalMutex == None
    {
      hierarchyValue, previousValue, internalMutex := value, 0, None;
    }
  }

  /** Threads working on a set of mutexes, each with its `thisThreadValue`. */
  class Threads {
    const mutexes: seq<Mutex>
    var thisThreadValue: seq<nat>
    var points: seq<Point>
    ghost var held: seq<seq<nat>>
    var outcomes: seq<seq<Outcome>>

    ghost predicate Valid()
      reads this
    {
      forall i, j :: 0 <= i < j < |mutexes| ==> mutexes[i] != mutexes[j]
    }

    ghost function View(): State
      reads this, mutexes
    {
      State(seq(|mutexes|, i requires 0 <= i < |mutexes| => mutexes[i].hierarchyValue),
            seq(|mutexes|, i requires 0 <= i < |mutexes| reads mutexes => mutexes[i].previousValue),
            seq(|mutexes|, i requires 0 <= i < |mutexes| reads mutexes => mutexes[i].internalMutex),
            thisThreadValue, points, held, outcomes)
    }

    constructor (mutexes: seq<Mutex>, threads: nat)
      requires forall i, j :: 0 <= i < j < |mutexes| ==> mutexes[i] != mutexes[j]
      requires forall i :: 0 <= i < |mutexes| ==>
        && mutexes[i].hierarchyValue <= ULONG_MAX
        && mutexes[i].previousValue == 0 && mutexes[i].internalMutex == None
      ensures Valid() && Init(View()) && this.mutexes == mutexes && |points| == threads
    {
      this.mutexes := mutexes;
      thisThreadValue := seq(threads, _ => ULONG_MAX);
      points, held, outcomes := seq(threads, _ => Idle), seq(threads, _ => []), seq(threads, _ => []);
    }

    method Finish(t: nat, o: Outcome)
      requires t < |points| == |outcomes|
      modifies this`points, this`outcomes
      ensures points == old(points)[t := Idle] && outcomes == old(outcomes)[t := old(outcomes)[t] + [o]]
    {
      points, outcomes := points[t := Idle], outcomes[t := outcomes[t] + [o]];
    }

    /** `check_for_hierarchy_violation`, with which `lock` and `try_lock` begin. */
    method Check(t: nat, m: nat, onlyTry: bool)
      requires Valid() && Enabled(View(), if onlyTry then TryLock(t, m) else Lock(t, m))
      modifies this
      ensures Valid() && View() == Do(old(View()), if onlyTry then TryLock(t, m) else Lock(t, m))
    {
      if thisThreadValue[t] <= mutexes[m].hierarchyValue {
        Finish(t, LogicError);
      } else if onlyTry {
        points := points[t := Trying(m)];
      } else {
        points := points[t := Waiting(m)];
      }
    }

    /** The first statements of `unlock`, on any mutex. */
    method BeginUnlock(t: nat, m: nat)
      requires Valid() && Enabled(View(), Unlock(t, m))
      modifies this
      ensures Valid() && View() == Do(old(View()), Unlock(t, m))
    {
      if thisThreadValue[t] != mutexes[m].hierarchyValue {
        Finish(t, LogicError);
      } else {
        thisThreadValue := thisThreadValue[t := mutexes[m].previousValue];
        points := points[t := Release(m)];
        held := held[t := if held[t] == [] then [] else held[t][..|held[t]| - 1]];
      }
    }

    /** The internal mutex, `update_hierarchy_value` and the release, statement by statement. */
    method Continue(t: nat)
      requires Valid() && Enabled(View(), Go(t))
      modifies this, mutexes
      ensures Valid() && View() == Do(old(View()), Go(t))
    {
      match points[t]
      case Waiting(m) =>
        mutexes[m].internalMutex := Some(t);
        points := points[t := SavePrev(m)];
      case Trying(m) =>
        if mutexes[m].internalMutex != None {
          Finish(t, Busy);
        } else {
          mutexes[m].internalMutex := Some(t);
          points := points[t := SavePrev(m)];
        }
      case SavePrev(m) =>
        mutexes[m].previousValue := thisThreadValue[t];
        points := points[t := SetValue(m)];
      case SetValue(m) =>
        thisThreadValue := thisThreadValue[t := mutexes[m].hierarchyValue];
        held := held[t := held[t] + [m]];
        Finish(t, Locked);
      case Release(m) =>
        mutexes[m].internalMutex := None;
        Finish(t, Unlocked);
    }
  }
}
