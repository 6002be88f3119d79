/** The counting semaphore of my_pxsem_mmap: a mutex, a condition variable and a count.
    `mysem_wait`, `mysem_post` and `mysem_trywait` are run statement by statement by any
    number of threads; a condition wait may end spuriously, and a signal wakes one
    sleeper of the scheduler's choice. */
module Semaphore {
  import opened Logs
  import opened Runs
  import opened Tally

  const SEM_MAGIC: int := 0x67458923
  /** `sem_count` is an unsigned int. */
  const WORD: int := 0x1_0000_0000

  datatype Operation = Wait | Post | TryWait

  /** Where a thread stands; Sleeping is inside `pthread_cond_wait` without the mutex,
      Woken is inside it but signalled and in need of the mutex. */
  datatype Point =
    | Idle
    | WaitLock | WaitTest | WaitSleep | Sleeping | Woken | WaitDec | WaitUnlock
    | PostLock | PostTest | PostSignal | PostInc | PostUnlock
    | TryLock | TryTest | TryDec | TryRefuse | TryUnlock(granted: bool)

  /** What an operation did, or what it returned: 0 from post, 0 from wait or trywait,
      -1 with EAGAIN, -1 with EINVAL. */
  datatype Event = Posted | Took | Refused | Invalid

  /** The semaphore, the threads, what each call returned to each thread, and the log of
      the moments at which operations took effect. Only threads below `waiters` call
      `mysem_wait`. */
  datatype State = State(
    magic: int, count: int, holder: Option<nat>,
    points: seq<Point>, waiters: nat,
    returned: seq<seq<Event>>, log: Log<Event>)

  datatype Action =
    | Call(t: nat, op: Operation)
    | Go(t: nat)
    | Signal(t: nat, sleeper: nat)
    | Spurious(t: nat)

  ghost predicate Init(s: State) {
    && 0 <= s.count < WORD && s.holder == None
    && s.waiters <= |s.points|
    && s.points == seq(|s.points|, _ => Idle)
    && s.returned == seq(|s.points|, _ => [])
    && s.log == []
  }

  predicate Holds(p: Point) {
    p.WaitTest? || p.WaitSleep? || p.WaitDec? || p.WaitUnlock? ||
    p.PostTest? || p.PostSignal? || p.PostInc? || p.PostUnlock? ||
    p.TryTest? || p.TryDec? || p.TryRefuse? || p.TryUnlock?
  }

  predicate Waiting(p: Point) {
    p.WaitLock? || p.WaitTest? || p.WaitSleep? || p.Sleeping? || p.Woken? || p.WaitDec? || p.WaitUnlock?
  }

  ghost predicate SomeoneSleeps(s: State) {
    exists u: nat :: u < |s.points| && s.points[u].Sleeping?
  }

  ghost predicate Enabled(s: State, a: Action) {
    && |s.returned| == |s.points|
    && a.t < |s.points|
    && match a
       case Call(t, op) => s.points[t].Idle? && (op.Wait? ==> t < s.waiters)
       case Go(t) =>
         (match s.points[t]
          case Idle | Sleeping => false
          case WaitLock | PostLock | TryLock | Woken => s.holder == None
          case PostSignal => !SomeoneSleeps(s)
          case _ => true)
       case Signal(t, u) => s.points[t].PostSignal? && u < |s.points| && s.points[u].Sleeping?
       case Spurious(t) => s.points[t].Sleeping?
  }

  function Move(s: State, t: nat, p: Point): State
    requires t < |s.points|
  {
    s.(points := s.points[t := p])
  }

  function Lock(s: State, t: nat, p: Point): State
    requires t < |s.points|
  {
    Move(s, t, p).(holder := Some(t))
  }

  /** Unlocks the mutex and returns from the operation. */
  function Return(s: State, t: nat, e: Event): State
    requires t < |s.points| && t < |s.returned|
  {
    Move(s, t, Idle).(holder := None, returned := s.returned[t := s.returned[t] + [e]])
  }

  function Logged(s: State, t: nat, e: Event): State {
    s.(log := s.log + [(t, e)])
  }

  /** A call looks at `sem_magic` before anything else. */
  function Enter(s: State, t: nat, op: Operation): State
    requires t < |s.points| && t < |s.returned|
  {
    if s.magic != SEM_MAGIC then
      Logged(s.(returned := s.returned[t := s.returned[t] + [Invalid]]), t, Invalid)
    else
      Move(s, t, match op case Wait => WaitLock case Post => PostLock case TryWait => TryLock)
  }

  /** One statement executed by thread t. */
  function Statement(s: State, t: nat): State
    requires t < |s.points| && t < |s.returned|
  {
    match s.points[t]
    case Idle | Sleeping => s
    // mysem_wait
    case WaitLock | Woken => Lock(s, t, WaitTest)
    case WaitTest => Move(s, t, if s.count == 0 then WaitSleep else WaitDec)
    case WaitSleep => Move(s, t, Sleeping).(holder := None)
    case WaitDec => Logged(Move(s, t, WaitUnlock).(count := (s.count - 1) % WORD), t, Took)
    case WaitUnlock => Return(s, t, Took)
    // mysem_post
    case PostLock => Lock(s, t, PostTest)
    case PostTest => Move(s, t, if s.count == 0 then PostSignal else PostInc)
    case PostSignal => Move(s, t, PostInc)
    case PostInc => Logged(Move(s, t, PostUnlock).(count := (s.count + 1) % WORD), t, Posted)
    case PostUnlock => Return(s, t, Posted)
    // mysem_trywait
    case TryLock => Lock(s, t, TryTest)
    case TryTest => Move(s, t, if s.count > 0 then TryDec else TryRefuse)
    case TryDec => Logged(Move(s, t, TryUnlock(true)).(count := (s.count - 1) % WORD), t, Took)
    case TryRefuse => Logged(Move(s, t, TryUnlock(false)), t, Refused)
    case TryUnlock(granted) => Return(s, t, if granted then Took else Refused)
  }

  ghost function Do(s: State, a: Action): State
    requires Enabled(s, a)
  {
    match a
    case Call(t, op) => Enter(s, t, op)
    case Go(t) => Statement(s, t)
    case Signal(t, u) => Move(Move(s, t, PostInc), u, Woken)
    case Spurious(t) => Move(s, t, Woken)
  }

  ghost predicate Next(s: State, t: State) {
    exists a :: Enabled(s, a) && t == Do(s, a)
  }

  /** A wait may end at any time without a signal; the mutex has still to be locked again. */
  lemma AnyWaitMayEnd(s: State, t: nat)
    requires |s.returned| == |s.points| && t < |s.points| && s.points[t].Sleeping?
    ensures Next(s, s.(points := s.points[t := Woken]))
  {
    assert Enabled(s, Spurious(t));
  }

  // ----- the atomic semaphore

  /** The value of an atomic semaphore after a history, or None if the history is not one
      an atomic semaphore could have: taking needs a positive value, refusing a zero. */
  function Value(init: int, log: Log<Event>): Option<int> {
    if log == [] then Some(init) else
    match Value(init, log[..|log| - 1])
    case None => None
    case Some(v) => Atomic(v, log[|log| - 1].1)
  }

  function Atomic(v: int, e: Event): Option<int> {
    match e
    case Posted => Some((v + 1) % WORD)
    case Took => if v > 0 then Some(v - 1) else None
    case Refused => if v == 0 then Some(v) else None
    case Invalid => Some(v)
  }

  function Times(log: Log<Event>, e: Event): nat {
    if log == [] then 0 else Times(log[..|log| - 1], e) + if log[|log| - 1].1 == e then 1 else 0
  }

  /** What a thread has already done but not yet been told. */
  function Pending(p: Point): seq<Event> {
    match p
    case WaitUnlock => [Took]
    case PostUnlock => [Posted]
    case TryUnlock(granted) => [if granted then Took else Refused]
    case _ => []
  }

  // ----- the invariant

  ghost predicate Knows(s: State, p: Point) {
    match p
    case WaitDec | TryDec => s.count > 0
    case WaitSleep | TryRefuse | PostSignal => s.count == 0
    case _ => true
  }

  ghost predicate Inv(s: State) {
    && |s.returned| == |s.points|
    && 0 <= s.count < WORD
    && (forall t: nat :: t < |s.points| ==> ThreadInv(s, t))
    && (s.holder.Some? ==> s.holder.value < |s.points|)
  }

  ghost predicate ThreadInv(s: State, t: nat)
    requires t < |s.points|
  {
    var p := s.points[t];
    && (Holds(p) <==> s.holder == Some(t))
    && Knows(s, p)
    && (Waiting(p) ==> t < s.waiters)
    && (s.magic != SEM_MAGIC ==> p.Idle?)
  }

  /** Linearizability: the log is a history of the atomic semaphore, and what each thread
      was told is what the log says it did, up to the call it is still in. */
  ghost predicate Refines(init: int, s: State) {
    && Value(init, s.log) == Some(s.count)
    && (forall t: nat :: t < |s.points| && t < |s.returned| ==>
          Of(s.log, t) == s.returned[t] + Pending(s.points[t]))
  }

  /** What a step leaves alone: other threads, except that it may wake one, and, as long as
      somebody else holds the mutex, mutex and count. */
  ghost predicate Frame(s: State, a: Action, n: State)
    requires a.t < |s.points|
  {
    && |n.points| == |s.points| == |n.returned| && n.magic == s.magic && n.waiters == s.waiters
    && (forall u: nat :: u < |s.points| && u != a.t ==>
          n.points[u] == s.points[u] || (s.points[u].Sleeping? && n.points[u].Woken?))
    && (n.holder == s.holder || (s.holder == None && n.holder == Some(a.t)) ||
        (s.holder == Some(a.t) && n.holder == None))
    && (n.count == s.count || s.holder == Some(a.t))
    && 0 <= n.count < WORD
  }

  lemma StepFrame(s: State, a: Action)
    requires Inv(s) && Enabled(s, a)
    ensures Frame(s, a, Do(s, a))
  {
    assert ThreadInv(s, a.t);
    hide Inv;
  }

  lemma StatementKeepsSelf(s: State, t: nat)
    requires Inv(s) && Enabled(s, Go(t)) && |Statement(s, t).points| == |s.points|
    ensures ThreadInv(Statement(s, t), t)
  {
    assert ThreadInv(s, t);
    hide Inv;
  }

  lemma StepKeepsSelf(s: State, a: Action)
    requires Inv(s) && Enabled(s, a) && a.t < |Do(s, a).points|
    ensures ThreadInv(Do(s, a), a.t)
  {
    if a.Go? {
      PoolIsKept(s, a);
      StatementKeepsSelf(s, a.t);
      hide Inv, ThreadInv, Statement;
    } else {
      assert ThreadInv(s, a.t);
      hide Inv, Statement;
    }
  }

  lemma StepKeepsOther(s: State, a: Action, n: State, u: nat)
    requires Inv(s) && a.t < |s.points| && Frame(s, a, n) && u < |s.points| && u != a.t
    ensures ThreadInv(n, u)
  {
    assert ThreadInv(s, a.t) && ThreadInv(s, u);
    hide Inv;
  }

  lemma StepInv(s: State, a: Action)
    requires Inv(s) && Enabled(s, a)
    ensures Inv(Do(s, a))
  {
    StepFrame(s, a);
    StepKeepsSelf(s, a);
    hide ThreadInv, Do, Enabled;
    forall u: nat | u < |Do(s, a).points| ensures ThreadInv(Do(s, a), u) {
      if u != a.t { StepKeepsOther(s, a, Do(s, a), u); }
    }
  }

  lemma HistoryExtends(init: int, log: Log<Event>, t: nat, e: Event)
    requires Value(init, log).Some?
    ensures Value(init, log + [(t, e)]) == Atomic(Value(init, log).value, e)
  {
    assert (log + [(t, e)])[..|log + [(t, e)]| - 1] == log;
  }

  /** From s to n, thread t did what the effect says, atomically, or nothing. */
  ghost predicate IsAtomic(s: State, n: State, t: nat, effect: seq<Event>) {
    && |effect| <= 1 && t < |s.points|
    && |n.points| == |s.points| == |n.returned| == |s.returned|
    && n.log == s.log + Tagged(t, effect)
    && Some(n.count) == (if effect == [] then Some(s.count) else Atomic(s.count, effect[0]))
    && n.returned[t] + Pending(n.points[t]) == s.returned[t] + Pending(s.points[t]) + effect
    && forall u: nat :: u < |s.points| && u != t ==>
         n.returned[u] == s.returned[u] && Pending(n.points[u]) == Pending(s.points[u])
  }

  /** Every statement either leaves the count and the log alone or is one atomic operation
      of the thread that executes it. */
  lemma StepIsAtomic(s: State, a: Action) returns (effect: seq<Event>)
    requires Inv(s) && Enabled(s, a)
    ensures IsAtomic(s, Do(s, a), a.t, effect)
  {
    assert ThreadInv(s, a.t);
    match a
    case Call(t, op) => effect := CallIsAtomic(s, t, op);
    case Go(t) => effect := StatementIsAtomic(s, t);
    case _ =>
      effect := [];
      hide Inv;
  }

  lemma CallIsAtomic(s: State, t: nat, op: Operation) returns (effect: seq<Event>)
    requires Enabled(s, Call(t, op))
    ensures IsAtomic(s, Enter(s, t, op), t, effect)
  {
    effect := if s.magic != SEM_MAGIC then [Invalid] else [];
  }

  lemma StatementIsAtomic(s: State, t: nat) returns (effect: seq<Event>)
    requires |s.points| == |s.returned| && t < |s.points| && 0 <= s.count < WORD && Knows(s, s.points[t])
    ensures IsAtomic(s, Statement(s, t), t, effect)
  {
    effect :=
      match s.points[t]
      case WaitDec | TryDec => [Took]
      case PostInc => [Posted]
      case TryRefuse => [Refused]
      case _ => [];
    var n := Statement(s, t);
    assert n.points == s.points[t := n.points[t]];
    assert Pending(s.points[t]) != [] ==> n.returned[t] == s.returned[t] + Pending(s.points[t]);
    assert Pending(s.points[t]) == [] ==> n.returned == s.returned;
  }

  /** A thread's account keeps agreeing with the log. */
  lemma AccountAgrees(s: State, n: State, t: nat, effect: seq<Event>, u: nat)
    requires IsAtomic(s, n, t, effect) && u < |s.points|
    requires Of(s.log, u) == s.returned[u] + Pending(s.points[u])
    ensures Of(n.log, u) == n.returned[u] + Pending(n.points[u])
  {
    hide Pending, Of, Tagged;
    OfTagged(s.log, t, effect, u);
  }

  lemma AtomicKeepsValue(init: int, s: State, n: State, t: nat, effect: seq<Event>)
    requires IsAtomic(s, n, t, effect) && Value(init, s.log) == Some(s.count)
    ensures Value(init, n.log) == Some(n.count)
  {
    hide Value, Atomic, Pending;
    if effect == [] {
      assert n.log == s.log;
    } else {
      HistoryExtends(init, s.log, t, effect[0]);
    }
  }

  lemma StepRefines(init: int, s: State, a: Action)
    requires Inv(s) && Refines(init, s) && Enabled(s, a)
    ensures Refines(init, Do(s, a))
  {
    var n := Do(s, a);
    var effect := StepIsAtomic(s, a);
    AtomicKeepsValue(init, s, n, a.t, effect);
    hide Do, Enabled, Inv, Of, Pending, Value, Atomic, Tagged;
    forall u: nat | u < |n.points| && u < |n.returned|
      ensures Of(n.log, u) == n.returned[u] + Pending(n.points[u])
    {
      AccountAgrees(s, n, a.t, effect, u);
    }
  }

  lemma InitRefines(s: State)
    requires Init(s)
    ensures Inv(s) && Refines(s.count, s)
  {
  }

  /** Every run refines the atomic semaphore. */
  lemma EveryRunRefines(run: seq<State>)
    requires IsRun(Init, Next, run)
    ensures forall k :: 0 <= k < |run| ==> Inv(run[k]) && Refines(run[0].count, run[k])
  {
    InitRefines(run[0]);
    hide Do, Enabled, Inv, Refines, Init;
    var n := 0;
    while n + 1 < |run|
      invariant 0 <= n < |run|
      invariant forall k :: 0 <= k <= n ==> Inv(run[k]) && Refines(run[0].count, run[k])
    {
      assert Next(run[n], run[n + 1]);
      var a :| Enabled(run[n], a) && run[n + 1] == Do(run[n], a);
      StepInv(run[n], a);
      StepRefines(run[0].count, run[n], a);
      n := n + 1;
    }
  }

  // ----- what was called, and what it was told

  ghost predicate Step(s: State, a: Action, n: State) {
    Enabled(s, a) && n == Do(s, a)
  }

  /** The calls among some actions. */
  function Calls(acts: seq<Action>): Log<Operation> {
    if acts == [] then [] else
    Calls(acts[..|acts| - 1]) +
      match acts[|acts| - 1]
      case Call(t, op) => [(t, op)]
      case _ => []
  }

  function Began(a: Action): seq<Operation> { if a.Call? then [a.op] else [] }

  lemma CallsOneMore(done: seq<Action>, a: Action)
    ensures Calls(done + [a]) == Calls(done) + Tagged(a.t, Began(a))
  {
    assert (done + [a])[..|done + [a]| - 1] == done;
  }

  /** What an operation may be told: EINVAL exactly if the magic number is wrong, and then
      success, except that a trywait may be refused. */
  predicate Fits(op: Operation, e: Event, valid: bool) {
    if !valid then e == Invalid else
    match op
    case Wait => e == Took
    case Post => e == Posted
    case TryWait => e == Took || e == Refused
  }

  /** The operation a thread is in the middle of. */
  function Current(p: Point): seq<Operation> {
    if p.Idle? then [] else if Waiting(p) then [Wait]
    else if p.PostLock? || p.PostTest? || p.PostSignal? || p.PostInc? || p.PostUnlock? then [Post]
    else [TryWait]
  }

  /** The operations a thread has called are, one by one, those it was told the outcome of,
      then the one it is in the middle of. */
  ghost predicate CallsMatch(calls: seq<Operation>, returned: seq<Event>, p: Point, valid: bool) {
    && |calls| == |returned| + |Current(p)|
    && (forall i :: 0 <= i < |returned| ==> Fits(calls[i], returned[i], valid))
    && (Current(p) != [] ==> calls[|returned|] == Current(p)[0])
    && (forall e :: e in Pending(p) ==> Current(p) != [] && Fits(Current(p)[0], e, valid))
  }

  ghost predicate ThreadAnswered(s: State, done: seq<Action>, t: nat)
    requires t < |s.points|
  {
    t < |s.returned| && CallsMatch(Of(Calls(done), t), s.returned[t], s.points[t], s.magic == SEM_MAGIC)
  }

  ghost predicate Answered(s: State, done: seq<Action>) {
    forall t: nat :: t < |s.points| ==> ThreadAnswered(s, done, t)
  }

  lemma CallGoesOn(calls: seq<Operation>, returned: seq<Event>, p: Point, q: Point, valid: bool)
    requires CallsMatch(calls, returned, p, valid) && Current(q) == Current(p)
    requires forall e :: e in Pending(q) ==> Current(q) != [] && Fits(Current(q)[0], e, valid)
    ensures CallsMatch(calls, returned, q, valid)
  {
  }

  lemma CallEnds(calls: seq<Operation>, returned: seq<Event>, p: Point, valid: bool)
    requires CallsMatch(calls, returned, p, valid) && Pending(p) != []
    ensures CallsMatch(calls, returned + Pending(p), Idle, valid)
  {
    assert Pending(p)[0] in Pending(p);
  }

  lemma CallBegins(calls: seq<Operation>, returned: seq<Event>, op: Operation, q: Point, valid: bool)
    requires CallsMatch(calls, returned, Idle, valid) && Current(q) == [op] && Pending(q) == []
    ensures CallsMatch(calls + [op], returned, q, valid)
  {
  }

  lemma CallIsInvalid(calls: seq<Operation>, returned: seq<Event>, op: Operation)
    requires CallsMatch(calls, returned, Idle, false)
    ensures CallsMatch(calls + [op], returned + [Invalid], Idle, false)
  {
  }

  /** A statement goes on with the operation, or ends it with what was pending. */
  lemma StatementFits(s: State, t: nat)
    requires t < |s.points| == |s.returned| && !s.points[t].Idle? && !s.points[t].Sleeping?
    ensures var (p, q, r) := (s.points[t], Statement(s, t).points[t], Statement(s, t).returned[t]);
      if Pending(p) != [] then q.Idle? && r == s.returned[t] + Pending(p)
      else
        && Current(q) == Current(p) && r == s.returned[t]
        && forall e :: e in Pending(q) ==> Current(q) != [] && Fits(Current(q)[0], e, true)
  {
  }

  lemma SelfAnswered(s: State, done: seq<Action>, a: Action)
    requires Inv(s) && Enabled(s, a) && ThreadAnswered(s, done, a.t) && Frame(s, a, Do(s, a))
    ensures ThreadAnswered(Do(s, a), done + [a], a.t)
  {
    var n, t, valid := Do(s, a), a.t, s.magic == SEM_MAGIC;
    var calls, returned, p := Of(Calls(done), t), s.returned[t], s.points[t];
    assert ThreadInv(s, t);
    CallsOneMore(done, a);
    OfTagged(Calls(done), t, Began(a), t);
    hide Inv, Calls, Of, Tagged, CallsMatch, Current, Pending, Fits;
    match a
    case Call(_, op) =>
      if valid {
        var q := n.points[t];
        EnterIsCurrent(s, t, op);
        CallBegins(calls, returned, op, q, valid);
      } else {
        CallIsInvalid(calls, returned, op);
      }
    case Go(_) =>
      StatementFits(s, t);
      if Pending(p) != [] {
        CallEnds(calls, returned, p, valid);
      } else {
        CallGoesOn(calls, returned, p, n.points[t], valid);
      }
    case _ =>
      WakingKeepsCurrent();
      CallGoesOn(calls, returned, p, n.points[t], valid);
  }

  lemma EnterIsCurrent(s: State, t: nat, op: Operation)
    requires t < |s.points| == |s.returned| && s.magic == SEM_MAGIC
    ensures Current(Enter(s, t, op).points[t]) == [op] && Pending(Enter(s, t, op).points[t]) == []
  {
  }

  lemma WakingKeepsCurrent()
    ensures Current(Sleeping) == Current(Woken) && Pending(Woken) == [] == Pending(Sleeping)
    ensures Current(PostSignal) == Current(PostInc) && Pending(PostInc) == []
  {
  }

  lemma OtherAnswered(s: State, done: seq<Action>, a: Action, n: State, u: nat)
    requires a.t < |s.points| && Frame(s, a, n) && u < |s.points| && u != a.t && ThreadAnswered(s, done, u)
    requires n.returned[u] == s.returned[u]
    ensures ThreadAnswered(n, done + [a], u)
  {
    CallsOneMore(done, a);
    OfTagged(Calls(done), a.t, Began(a), u);
    WakingKeepsCurrent();
    hide Calls, Of, Tagged, CallsMatch, Current, Pending, Fits;
    assert Of(Calls(done + [a]), u) == Of(Calls(done), u);
    if n.points[u] != s.points[u] {
      CallGoesOn(Of(Calls(done), u), s.returned[u], s.points[u], n.points[u], s.magic == SEM_MAGIC);
    }
  }

  /** Every trace is one of the atomic semaphore: the log is a legal history that ends in the
      current count, each thread was told what the log says it did, and what it was told are
      answers, one by one, to the operations it called. */
  lemma EveryTraceRefines(run: seq<State>, acts: seq<Action>)
    requires IsTrace(Init, Step, run, acts)
    ensures Inv(Last(run)) && Refines(run[0].count, Last(run)) && Last(run).magic == run[0].magic
    ensures Answered(Last(run), acts)
  {
    var inv := (s: State, done: seq<Action>) =>
      Inv(s) && Refines(run[0].count, s) && s.magic == run[0].magic && Answered(s, done);
    InitRefines(run[0]);
    assert inv(run[0], []);
    forall s, done, a, t | inv(s, done) && Step(s, a, t) ensures inv(t, done + [a]) {
      StepInv(s, a);
      StepFrame(s, a);
      StepRefines(run[0].count, s, a);
      StepAnswered(s, done, a);
    }
    hide Init, Step, Inv, Refines, Answered;
    TraceInvariance(Init, Step, inv, run, acts);
  }

  lemma StepAnswered(s: State, done: seq<Action>, a: Action)
    requires Inv(s) && Enabled(s, a) && Answered(s, done)
    ensures Answered(Do(s, a), done + [a])
  {
    var n := Do(s, a);
    StepFrame(s, a);
    SelfAnswered(s, done, a);
    var effect := StepIsAtomic(s, a);
    hide Do, Enabled, ThreadAnswered, Inv, Pending;
    forall u: nat | u < |n.points| ensures ThreadAnswered(n, done + [a], u) {
      if u != a.t { OtherAnswered(s, done, a, n, u); }
    }
  }

  /** How often the unsigned counter wrapped from its maximum to zero. */
  function Wraps(init: int, log: Log<Event>): nat {
    if log == [] then 0 else
    var rest := log[..|log| - 1];
    Wraps(init, rest) + if log[|log| - 1].1 == Posted && Value(init, rest) == Some(WORD - 1) then 1 else 0
  }

  /** Conservation in any legal history: initial value + posts = value + takes, as long as
      the counter does not wrap, which it cannot before that many posts have happened. */
  lemma {:induction false} HistoryConserves(init: int, log: Log<Event>)
    requires 0 <= init < WORD && Value(init, log).Some?
    ensures 0 <= Value(init, log).value < WORD
    ensures init + Times(log, Posted) == Value(init, log).value + Times(log, Took) + WORD * Wraps(init, log)
  {
    if log != [] {
      HistoryConserves(init, log[..|log| - 1]);
    }
  }

  /** initial value + posts = count + successful waits and trywaits, in every state of
      every run, with the wrap-around of the unsigned counter made explicit; no wrap can
      have happened unless the posts reached the width of the counter. */
  lemma TokensAreConserved(run: seq<State>, k: nat)
    requires IsRun(Init, Next, run) && k < |run|
    ensures var (init, log) := (run[0].count, run[k].log);
      && init + Times(log, Posted) == run[k].count + Times(log, Took) + WORD * Wraps(init, log)
      && (init + Times(log, Posted) < WORD ==> Wraps(init, log) == 0)
  {
    EveryRunRefines(run);
    HistoryConserves(run[0].count, run[k].log);
  }

  // ----- lost wakeups

  /** The mutex is free, the count is positive, and yet a waiter sleeps unsignalled. */
  ghost predicate Lost(s: State) {
    s.holder == None && s.count > 0 && SomeoneSleeps(s)
  }

  /** Lost for good: every other thread is outside the semaphore or asleep too. */
  ghost predicate Stuck(s: State) {
    Lost(s) && forall t: nat :: t < |s.points| ==> s.points[t].Idle? || s.points[t].Sleeping?
  }

  /** At most one thread that can sleep beside a poster. */
  predicate OneSleeper(s: State) {
    s.waiters <= 1 || |s.points| <= 2
  }

  /** While anyone sleeps, the count is zero and nobody is about to raise it. */
  ghost predicate NoneForgotten(s: State) {
    SomeoneSleeps(s) ==> s.count == 0 && forall t: nat :: t < |s.points| ==> !s.points[t].PostInc?
  }

  /** Whoever sleeps after a step slept before it, unless the count is zero. */
  lemma StepForgetsNone(s: State, a: Action)
    requires Inv(s) && OneSleeper(s) && NoneForgotten(s) && Enabled(s, a)
    ensures NoneForgotten(Do(s, a)) && OneSleeper(Do(s, a))
  {
    var n := Do(s, a);
    assert ThreadInv(s, a.t);
    if a.Signal? {
      assert ThreadInv(s, a.sleeper);
      forall u: nat | u < |n.points| ensures !n.points[u].Sleeping? {
        assert ThreadInv(s, u);
      }
    } else if u: nat :| u < |n.points| && n.points[u].Sleeping? {
      if s.points[u].Sleeping? {
        assert SomeoneSleeps(s);
      }
      forall v: nat | v < |n.points| ensures !n.points[v].PostInc? {
        assert ThreadInv(s, v);
      }
    }
  }

  lemma NoWakeupIsLost(run: seq<State>)
    requires IsRun(Init, Next, run) && OneSleeper(run[0])
    ensures forall k :: 0 <= k < |run| ==> !Lost(run[k])
  {
    EveryRunRefines(run);
    var n := 0;
    while n + 1 < |run|
      invariant 0 <= n < |run|
      invariant forall k :: 0 <= k <= n ==> OneSleeper(run[k]) && NoneForgotten(run[k])
    {
      assert Next(run[n], run[n + 1]);
      var a :| Enabled(run[n], a) && run[n + 1] == Do(run[n], a);
      StepForgetsNone(run[n], a);
      n := n + 1;
    }
  }

  /** A thread that finds the count at zero goes to sleep. */
  lemma FallAsleep(run: seq<State>, t: nat) returns (longer: seq<State>)
    requires IsRun(Init, Next, run)
    requires var s := Last(run);
      && s.magic == SEM_MAGIC && s.count == 0 && s.holder == None && |s.returned| == |s.points|
      && t < s.waiters <= |s.points| && s.points[t].Idle?
    ensures IsRun(Init, Next, longer)
    ensures Last(longer) == Move(Last(run), t, Sleeping)
  {
    var s := Last(run);
    longer := Extend(Init, Next, run, Do(Last(run), Call(t, Wait)));
    longer := Extend(Init, Next, longer, Do(Last(longer), Go(t)));
    longer := Extend(Init, Next, longer, Do(Last(longer), Go(t)));
    longer := Extend(Init, Next, longer, Do(Last(longer), Go(t)));
    assert Last(longer).points == s.points[t := Sleeping];
  }

  /** A post reaches its increment, having woken one sleeper if the count is zero. */
  lemma PostHalf(run: seq<State>, t: nat, u: nat) returns (longer: seq<State>)
    requires IsRun(Init, Next, run)
    requires var s := Last(run);
      && s.magic == SEM_MAGIC && s.holder == None && |s.returned| == |s.points|
      && t < |s.points| && s.points[t].Idle?
      && u < |s.points| && s.points[u].Sleeping?
    ensures IsRun(Init, Next, longer)
    ensures var (s, n) := (Last(run), Last(longer));
      && n == s.(points := n.points, holder := Some(t))
      && n.points == (if s.count == 0 then s.points[u := Woken] else s.points)[t := PostInc]
  {
    var s := Last(run);
    longer := Extend(Init, Next, run, Do(s, Call(t, Post)));
    longer := Extend(Init, Next, longer, Do(Last(longer), Go(t)));
    longer := Extend(Init, Next, longer, Do(Last(longer), Go(t)));
    if s.count == 0 {
      longer := Extend(Init, Next, longer, Do(Last(longer), Signal(t, u)));
    }
    assert Last(longer).points == (if s.count == 0 then s.points[u := Woken] else s.points)[t := PostInc];
  }

  /** A post to a count of zero wakes one sleeper; a post to a positive count wakes none. */
  lemma PostOnce(run: seq<State>, t: nat, u: nat) returns (longer: seq<State>)
    requires IsRun(Init, Next, run)
    requires var s := Last(run);
      && s.magic == SEM_MAGIC && 0 <= s.count < 2 && s.holder == None && |s.returned| == |s.points|
      && t < |s.points| && s.points[t].Idle?
      && u < |s.points| && s.points[u].Sleeping?
    ensures IsRun(Init, Next, longer)
    ensures var (s, n) := (Last(run), Last(longer));
      && n.points == (if s.count == 0 then s.points[u := Woken] else s.points)
      && n.count == s.count + 1 && n.holder == None && n.magic == s.magic
      && n.waiters == s.waiters && |n.returned| == |n.points|
  {
    var s := Last(run);
    longer := PostHalf(run, t, u);
    longer := Extend(Init, Next, longer, Do(Last(longer), Go(t)));
    longer := Extend(Init, Next, longer, Do(Last(longer), Go(t)));
    assert Last(longer).points == if s.count == 0 then s.points[u := Woken] else s.points;
  }

  /** A woken waiter takes the count and leaves. */
  lemma TakeAndLeave(run: seq<State>, t: nat) returns (longer: seq<State>)
    requires IsRun(Init, Next, run)
    requires var s := Last(run);
      && 0 < s.count < WORD && s.holder == None && |s.returned| == |s.points|
      && t < |s.points| && s.points[t].Woken?
    ensures IsRun(Init, Next, longer)
    ensures var (s, n) := (Last(run), Last(longer));
      && n.points == s.points[t := Idle] && n.count == s.count - 1 && n.holder == None
      && n.waiters == s.waiters
  {
    var s := Last(run);
    longer := Extend(Init, Next, run, Do(Last(run), Go(t)));
    longer := Extend(Init, Next, longer, Do(Last(longer), Go(t)));
    longer := Extend(Init, Next, longer, Do(Last(longer), Go(t)));
    longer := Extend(Init, Next, longer, Do(Last(longer), Go(t)));
    assert Last(longer).points == s.points[t := Idle];
  }

  /** Two waiters and a poster: both go to sleep, two posts signal only once, the woken
      waiter takes one of the two counts, and the other sleeps on with the count at 1. */
  lemma TwoWaitersCanBeStuck(threads: nat, waiters: nat) returns (run: seq<State>)
    requires 2 <= waiters <= threads && 3 <= threads
    ensures IsRun(Init, Next, run)
    ensures |Last(run).points| == threads && Last(run).waiters == waiters
    ensures Stuck(Last(run)) && Last(run).count == 1
  {
    var s := State(SEM_MAGIC, 0, None, seq(threads, _ => Idle), waiters, seq(threads, _ => []), []);
    run := FallAsleep([s], 0);
    run := FallAsleep(run, 1);
    run := PostOnce(run, 2, 0);
    run := PostOnce(run, 2, 1);
    run := TakeAndLeave(run, 0);
    var n := Last(run);
    assert n.points[1].Sleeping?;
    assert SomeoneSleeps(n);
  }

  ghost predicate CanLose(threads: nat, waiters: nat) {
    exists run :: IsRun(Init, Next, run) && LosesAt(run, threads, waiters)
  }

  ghost predicate LosesAt(run: seq<State>, threads: nat, waiters: nat) {
    && |run| > 0
    && |run[0].points| == threads && run[0].waiters == waiters
    && Stuck(Last(run))
  }

  lemma PoolIsKept(s: State, a: Action)
    requires Enabled(s, a)
    ensures |Do(s, a).points| == |s.points| && Do(s, a).waiters == s.waiters
  {
  }

  lemma {:induction false} PoolIsFixed(run: seq<State>)
    requires IsRun(Init, Next, run)
    ensures |Last(run).points| == |run[0].points| && Last(run).waiters == run[0].waiters
  {
    if |run| > 1 {
      PoolIsFixed(run[..|run| - 1]);
      assert Next(run[|run| - 2], Last(run));
      var a :| Enabled(run[|run| - 2], a) && Last(run) == Do(run[|run| - 2], a);
      PoolIsKept(run[|run| - 2], a);
    }
  }

  /** Signalling only on the step from 0 to 1 loses a wakeup in some run exactly when two
      threads may wait and a third one can post. */
  lemma WakeupsAreLostExactlyWithTwoWaiters(threads: nat, waiters: nat)
    requires waiters <= threads
    ensures CanLose(threads, waiters) <==> waiters >= 2 && threads >= 3
  {
    if waiters >= 2 && threads >= 3 {
      var run := TwoWaitersCanBeStuck(threads, waiters);
      PoolIsFixed(run);
      assert LosesAt(run, threads, waiters);
    } else {
      forall run | IsRun(Init, Next, run) && LosesAt(run, threads, waiters) ensures false {
        NoWakeupIsLost(run);
      }
    }
  }

  // ----- a semaphore at rest

  /** Nothing can happen any more but a new call and a spurious wakeup. */
  ghost predicate Resting(s: State) {
    forall a :: Enabled(s, a) ==> a.Call? || a.Spurious?
  }

  lemma RestingPoints(s: State)
    requires Inv(s) && Resting(s)
    ensures s.holder == None
    ensures forall t: nat :: t < |s.points| ==> s.points[t].Idle? || s.points[t].Sleeping?
  {
    if s.holder.Some? {
      var h := s.holder.value;
      assert ThreadInv(s, h);
      assert !Enabled(s, Go(h));
      var u: nat :| u < |s.points| && s.points[u].Sleeping?;
      assert Enabled(s, Signal(h, u));
    }
    forall t: nat | t < |s.points| ensures s.points[t].Idle? || s.points[t].Sleeping? {
      assert ThreadInv(s, t) && !Enabled(s, Go(t));
    }
  }

  /** A run that has come to rest has the mutex free and every thread told what it did or
      asleep; it is stuck exactly if the count is positive and somebody sleeps, which one
      sleeper beside posters never is. */
  lemma RestsStuckExactlyWithACountAndASleeper(run: seq<State>)
    requires IsRun(Init, Next, run) && Resting(Last(run))
    ensures var s := Last(run);
      && s.holder == None
      && (forall t: nat :: t < |s.points| ==>
            (s.points[t].Idle? || s.points[t].Sleeping?) && t < |s.returned| && s.returned[t] == Of(s.log, t))
      && (Stuck(s) <==> s.count > 0 && SomeoneSleeps(s))
      && (OneSleeper(run[0]) ==> !SomeoneSleeps(s) || s.count == 0)
  {
    EveryRunRefines(run);
    var s := Last(run);
    assert Inv(s) && Refines(run[0].count, s);
    RestingPoints(s);
    if OneSleeper(run[0]) {
      NoWakeupIsLost(run);
      assert !Lost(s);
    }
  }

  /** Statements to the end of a call or to sleep; a signal pays for whom it wakes. */
  function Rank(p: Point): int {
    match p
    case Idle => 0 case Sleeping => 0
    case WaitLock => 4 case Woken => 4 case WaitTest => 3 case WaitSleep => 2 case WaitDec => 2 case WaitUnlock => 1
    case PostLock => 9 case PostTest => 8 case PostSignal => 7 case PostInc => 2 case PostUnlock => 1
    case TryLock => 4 case TryTest => 3 case TryDec => 2 case TryRefuse => 2 case TryUnlock(_) => 1
  }

  lemma StatementCalms(s: State, t: nat)
    requires t < |s.points| == |s.returned|
    requires !s.points[t].Idle? && !s.points[t].Sleeping?
    ensures var q := Statement(s, t).points[t];
      Statement(s, t).points == s.points[t := q] && Rank(q) < Rank(s.points[t])
  {
  }

  /** The semaphore comes to rest if it is left alone: every step but a new call and a
      spurious wakeup lowers what is left to do, and those raise it by a fixed amount. */
  lemma SemaphoreComesToRest(s: State, a: Action)
    requires Enabled(s, a)
    ensures 0 <= Sum(Rank, Do(s, a).points)
    ensures Sum(Rank, Do(s, a).points)
      < Sum(Rank, s.points) + (if a.Call? then 10 else if a.Spurious? then 5 else 0)
  {
    var n := Do(s, a);
    SumNonneg(Rank, n.points);
    hide Sum;
    if a.Signal? {
      SumUpdate(Rank, s.points, a.t, PostInc);
      SumUpdate(Rank, s.points[a.t := PostInc], a.sleeper, Woken);
    } else if a.Go? {
      StatementCalms(s, a.t);
      hide Statement, Rank;
      SumUpdate(Rank, s.points, a.t, n.points[a.t]);
    } else {
      assert n.points == s.points[a.t := n.points[a.t]];
      SumUpdate(Rank, s.points, a.t, n.points[a.t]);
    }
  }

  // ----- the program

  class MySem {
    var semCount: int
    var semMagic: int
    var semMutex: Option<nat>
    var points: seq<Point>
    const waiters: nat
    var returned: seq<seq<Event>>
    ghost var log: Log<Event>

    ghost function View(): State
      reads this
    {
      State(semMagic, semCount, semMutex, points, waiters, returned, log)
    }

    /** A semaphore as `mysem_open` leaves it. */
    constructor (value: int, threads: nat, waiters: nat)
      requires 0 <= value < WORD && waiters <= threads
      ensures Init(View()) && semMagic == SEM_MAGIC && semCount == value
      ensures |points| == threads && this.waiters == waiters
    {
      semCount, semMagic, semMutex := value, SEM_MAGIC, None;
      points, this.waiters := seq(threads, _ => Idle), waiters;
      returned, log := seq(threads, _ => []), [];
    }

    method Begin(t: nat, op: Operation)
      requires Enabled(View(), Call(t, op))
      modifies this
      ensures View() == Do(old(View()), Call(t, op))
    {
      if semMagic != SEM_MAGIC {
        returned := returned[t := returned[t] + [Invalid]];
        log := log + [(t, Invalid)];
        return;
      }
      match op
      case Wait => points := points[t := WaitLock];
      case Post => points := points[t := PostLock];
      case TryWait => points := points[t := TryLock];
    }

    /** A condition wait ends without a signal. */
    method WakeUp(t: nat)
      requires Enabled(View(), Spurious(t))
      modifies this
      ensures View() == Do(old(View()), Spurious(t))
    {
      points := points[t := Woken];
    }

    /** One statement of `mysem_wait`. */
    method Wait(t: nat)
      requires Enabled(View(), Go(t)) && Waiting(points[t])
      modifies this
      ensures View() == Do(old(View()), Go(t))
    {
      match points[t]
      case WaitLock | Woken =>
        semMutex, points := Some(t), points[t := WaitTest];
      case WaitTest =>
        if semCount == 0 {
          points := points[t := WaitSleep];
        } else {
          points := points[t := WaitDec];
        }
      case WaitSleep =>
        semMutex, points := None, points[t := Sleeping];
      case WaitDec =>
        semCount, points := (semCount - 1) % WORD, points[t := WaitUnlock];
        log := log + [(t, Took)];
      case WaitUnlock =>
        semMutex, points, returned := None, points[t := Idle], returned[t := returned[t] + [Took]];
    }

    /** One statement of `mysem_post`; `sleeper` is the thread a signal wakes. */
    method Post(t: nat, sleeper: Option<nat>)
      requires if sleeper.Some? then Enabled(View(), Signal(t, sleeper.value)) else Enabled(View(), Go(t))
      requires points[t].PostLock? || points[t].PostTest? || points[t].PostSignal? ||
               points[t].PostInc? || points[t].PostUnlock?
      modifies this
      ensures View() == Do(old(View()), if sleeper.Some? then Signal(t, sleeper.value) else Go(t))
    {
      match points[t]
      case PostLock =>
        semMutex, points := Some(t), points[t := PostTest];
      case PostTest =>
        if semCount == 0 {
          points := points[t := PostSignal];
        } else {
          points := points[t := PostInc];
        }
      case PostSignal =>
        points := points[t := PostInc];
        if sleeper.Some? {
          points := points[sleeper.value := Woken];
        }
      case PostInc =>
        semCount, points := (semCount + 1) % WORD, points[t := PostUnlock];
        log := log + [(t, Posted)];
      case PostUnlock =>
        semMutex, points, returned := None, points[t := Idle], returned[t := returned[t] + [Posted]];
    }

    /** One statement of `mysem_trywait`. */
    method TryWait(t: nat)
      requires Enabled(View(), Go(t))
      requires points[t].TryLock? || points[t].TryTest? || points[t].TryDec? ||
               points[t].TryRefuse? || points[t].TryUnlock?
      modifies this
      ensures View() == Do(old(View()), Go(t))
    {
      match points[t]
      case TryLock =>
        semMutex, points := Some(t), points[t := TryTest];
      case TryTest =>
        if semCount > 0 {
          points := points[t := TryDec];
        } else {
          points := points[t := TryRefuse];
        }
      case TryDec =>
        semCount, points := (semCount - 1) % WORD, points[t := TryUnlock(true)];
        log := log + [(t, Took)];
      case TryRefuse =>
        points := points[t := TryUnlock(false)];
        log := log + [(t, Refused)];
      case TryUnlock(granted) =>
        var rc := if granted then Took else Refused;
        semMutex, points, returned := None, points[t := Idle], returned[t := returned[t] + [rc]];
    }
  }
}
