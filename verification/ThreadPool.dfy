/** `ThreadPool`: workers that take tasks from a queue under a mutex with a condition
    variable, any number of committing threads that notify after they have released the
    mutex, and one call of `stop` that sets its flag without the mutex. */
module ThreadPool {
  import opened Logs
  import opened Tally
  import opened Runs
  import opened Sequences

  /** A thread of the pool; `woken` marks one that has been through the wait. */
  datatype Worker =
    | LoopTest | LockTasks | WaitTest(woken: bool) | FallAsleep | Sleeping | Woken
    | TakeTask(woken: bool) | UnlockTasks(task: int) | DecCount(task: int) | RunTask(task: int) | IncCount
    | Exited

  /** A thread that may call `commit`. */
  datatype Committer = Ready | LoadStop(task: int) | LockPush(task: int) | Emplace(task: int) | UnlockPush | NotifyOne

  /** The thread that calls `stop`. */
  datatype Stopper = NotStopping | NotifyAll | Joining

  datatype Owner = Pool(w: nat) | Client(c: nat)

  datatype State = State(
    size: int, threadNum: int, stop: bool, tasks: seq<int>, holder: Option<Owner>,
    workers: seq<Worker>, committers: seq<Committer>, stopper: Stopper,
    accepted: Log<int>, refused: Log<int>, taken: Log<int>,
    ran: seq<seq<int>>, late: seq<nat>)

  datatype Action =
    | Work(w: nat)
    | Spurious(w: nat)
    | Commit(c: nat, task: int)
    | Client(c: nat)
    | Notify(c: nat, sleeper: nat)
    | Stop

  /** The pool as its constructor leaves it: at least one worker, each at its loop. */
  ghost predicate Init(s: State) {
    && s.size >= 1 && s.threadNum == s.size == |s.workers|
    && !s.stop && s.tasks == [] && s.holder == None
    && s.workers == seq(|s.workers|, _ => LoopTest)
    && s.committers == seq(|s.committers|, _ => Ready)
    && s.stopper == NotStopping
    && s.accepted == s.refused == [] && s.taken == []
    && s.ran == seq(|s.workers|, _ => [])
    && s.late == seq(|s.workers|, _ => 0)
  }

  predicate WHolds(p: Worker) { p.WaitTest? || p.FallAsleep? || p.TakeTask? || p.UnlockTasks? }
  predicate CHolds(p: Committer) { p.Emplace? || p.UnlockPush? }

  ghost predicate SomeoneSleeps(s: State) {
    exists w: nat :: w < |s.workers| && s.workers[w].Sleeping?
  }

  predicate Shape(s: State) { |s.ran| == |s.late| == |s.workers| }

  ghost predicate Enabled(s: State, a: Action) {
    && Shape(s)
    && match a
       case Work(w) =>
         w < |s.workers| &&
         (match s.workers[w]
          case Sleeping | Exited => false
          case LockTasks | Woken => s.holder == None
          case _ => true)
       case Spurious(w) => w < |s.workers| && s.workers[w].Sleeping?
       case Commit(c, _) => c < |s.committers| && s.committers[c].Ready?
       case Client(c) =>
         c < |s.committers| &&
         (match s.committers[c]
          case Ready => false
          case LockPush(_) => s.holder == None
          case NotifyOne => !SomeoneSleeps(s)
          case _ => true)
       case Notify(c, w) =>
         c < |s.committers| && s.committers[c].NotifyOne? && w < |s.workers| && s.workers[w].Sleeping?
       case Stop => s.stopper != Joining
  }

  function Move(s: State, w: nat, p: Worker): State
    requires w < |s.workers|
  {
    s.(workers := s.workers[w := p])
  }

  /** One statement of a worker. */
  function WorkStep(s: State, w: nat): State
    requires Shape(s) && w < |s.workers|
  {
    match s.workers[w]
    case LoopTest => Move(s, w, if s.stop then Exited else LockTasks)
    case LockTasks => Move(s, w, WaitTest(false)).(holder := Some(Pool(w)))
    case Woken => Move(s, w, WaitTest(true)).(holder := Some(Pool(w)))
    case WaitTest(woken) =>
      Move(s, w, if s.stop || s.tasks != [] then TakeTask(woken) else FallAsleep)
    case FallAsleep => Move(s, w, Sleeping).(holder := None)
    case TakeTask(_) =>
      if s.tasks == [] then Move(s, w, Exited).(holder := None)
      else Move(s, w, UnlockTasks(s.tasks[0])).(
        tasks := s.tasks[1..], taken := s.taken + [(w, s.tasks[0])],
        late := if s.stop then s.late[w := s.late[w] + 1] else s.late)
    case UnlockTasks(x) => Move(s, w, DecCount(x)).(holder := None)
    case DecCount(x) => Move(s, w, RunTask(x)).(threadNum := s.threadNum - 1)
    case RunTask(x) => Move(s, w, IncCount).(ran := s.ran[w := s.ran[w] + [x]])
    case IncCount => Move(s, w, LoopTest).(threadNum := s.threadNum + 1)
    case Sleeping | Exited => s
  }

  /** One statement of `commit`; without a sleeper the notification is lost. */
  function ClientStep(s: State, c: nat): State
    requires c < |s.committers|
  {
    match s.committers[c]
    case Ready => s
    case LoadStop(x) =>
      if s.stop then s.(committers := s.committers[c := Ready], refused := s.refused + [(c, x)])
      else s.(committers := s.committers[c := LockPush(x)])
    case LockPush(x) => s.(committers := s.committers[c := Emplace(x)], holder := Some(Owner.Client(c)))
    case Emplace(x) =>
      s.(committers := s.committers[c := UnlockPush], tasks := s.tasks + [x],
            accepted := s.accepted + [(c, x)])
    case UnlockPush => s.(committers := s.committers[c := NotifyOne], holder := None)
    case NotifyOne => s.(committers := s.committers[c := Ready])
  }

  /** `notify_all` wakes every sleeper at once. */
  function WakeAll(ws: seq<Worker>): seq<Worker> {
    seq(|ws|, i requires 0 <= i < |ws| => if ws[i].Sleeping? then Woken else ws[i])
  }

  ghost function Do(s: State, a: Action): State
    requires Enabled(s, a)
  {
    match a
    case Work(w) => WorkStep(s, w)
    case Spurious(w) => Move(s, w, Woken)
    case Commit(c, x) => s.(committers := s.committers[c := LoadStop(x)])
    case Client(c) => ClientStep(s, c)
    case Notify(c, w) => Move(s, w, Woken).(committers := s.committers[c := Ready])
    case Stop =>
      if s.stopper.NotStopping? then s.(stop := true, stopper := NotifyAll)
      else s.(workers := WakeAll(s.workers), stopper := Joining)
  }

  ghost predicate Next(s: State, t: State) {
    exists a :: Enabled(s, a) && t == Do(s, a)
  }

  /** A wait may end at any time without a notification; the mutex has still to be locked. */
  lemma AnyWaitMayEnd(s: State, w: nat)
    requires Shape(s) && w < |s.workers| && s.workers[w].Sleeping?
    ensures Next(s, s.(workers := s.workers[w := Woken]))
  {
    assert Enabled(s, Spurious(w));
  }

  // ----- the invariant

  predicate PastTake(p: Worker) {
    p.UnlockTasks? || p.DecCount? || p.RunTask? || p.IncCount? || p.LoopTest? || p.Exited?
  }

  ghost predicate WorkerInv(s: State, w: nat)
    requires Shape(s) && w < |s.workers|
  {
    var p := s.workers[w];
    && (WHolds(p) <==> s.holder == Some(Pool(w)))
    && (p.FallAsleep? ==> s.tasks == [])
    && (s.late[w] > 0 ==> s.stop && s.late[w] == 1 && PastTake(p))
  }

  ghost predicate Inv(s: State) {
    && Shape(s)
    && (forall w: nat :: w < |s.workers| ==> WorkerInv(s, w))
    && (forall c: nat :: c < |s.committers| ==>
          (CHolds(s.committers[c]) <==> s.holder == Some(Owner.Client(c))))
    && (s.stop <==> !s.stopper.NotStopping?)
    && (match s.holder
        case Some(Pool(w)) => w < |s.workers|
        case Some(Client(c)) => c < |s.committers|
        case None => true)
  }

  lemma StepKeepsWorker(s: State, a: Action, w: nat)
    requires Inv(s) && Enabled(s, a) && Shape(Do(s, a)) && w < |Do(s, a).workers|
    ensures WorkerInv(Do(s, a), w)
  {
    assert WorkerInv(s, w);
    if a.Work? {
      assert WorkerInv(s, a.w);
      assert w != a.w ==> Do(s, a).workers[w] == s.workers[w];
    }
  }

  lemma StepKeepsMutex(s: State, a: Action)
    requires Inv(s) && Enabled(s, a)
    ensures var n := Do(s, a);
      && Shape(n) && (n.stop <==> !n.stopper.NotStopping?)
      && (forall c: nat :: c < |n.committers| ==>
            (CHolds(n.committers[c]) <==> n.holder == Some(Owner.Client(c))))
      && (match n.holder
          case Some(Pool(w)) => w < |n.workers|
          case Some(Client(c)) => c < |n.committers|
          case None => true)
  {
    if a.Work? {
      assert WorkerInv(s, a.w);
    }
  }

  lemma StepInv(s: State, a: Action)
    requires Inv(s) && Enabled(s, a)
    ensures Inv(Do(s, a))
  {
    StepKeepsMutex(s, a);
    forall w: nat | w < |Do(s, a).workers| ensures WorkerInv(Do(s, a), w) { StepKeepsWorker(s, a, w); }
  }

  // ----- order of dispatch

  /** The task a worker has taken and not yet run. */
  function InHand(p: Worker): seq<int> {
    match p
    case UnlockTasks(x) => [x]
    case DecCount(x) => [x]
    case RunTask(x) => [x]
    case _ => []
  }

  /** Tasks leave the queue in the order in which they were committed, each once, and each
      worker runs exactly the tasks it took, each once. */
  ghost predicate InOrder(s: State) {
    && Entries(s.taken) + s.tasks == Entries(s.accepted) && Within(s.taken, |s.workers|)
    && forall w: nat :: w < |s.workers| && w < |s.ran| ==>
         Of(s.taken, w) == s.ran[w] + InHand(s.workers[w])
  }

  /** What moves between the queue, the logs and the hands of the workers when worker w takes
      `out` and `inn` is committed. */
  ghost predicate Moves(s: State, n: State, w: nat, inn: seq<int>, out: seq<int>) {
    && |out| <= 1 && Entries(n.accepted) == Entries(s.accepted) + inn && s.tasks + inn == out + n.tasks
    && n.taken == s.taken + Tagged(w, out) && (out != [] ==> w < |s.workers|)
    && |n.workers| == |s.workers| == |n.ran| == |s.ran|
    && (w < |s.workers| ==> n.ran[w] + InHand(n.workers[w]) == s.ran[w] + InHand(s.workers[w]) + out)
    && forall u: nat :: u < |s.workers| && u != w ==>
         n.ran[u] == s.ran[u] && InHand(n.workers[u]) == InHand(s.workers[u])
  }

  lemma WorkMoves(s: State, w: nat)
    requires Inv(s) && Enabled(s, Work(w))
    ensures Moves(s, Do(s, Work(w)), w, [], if s.workers[w].TakeTask? && s.tasks != [] then [s.tasks[0]] else [])
  {
    hide Inv;
    var n := Do(s, Work(w));
    assert n.workers == s.workers[w := n.workers[w]];
    assert s.workers[w].RunTask? ==> n.ran[w] == s.ran[w] + InHand(s.workers[w]);
  }

  lemma ClientMoves(s: State, c: nat, w: nat)
    requires Inv(s) && Enabled(s, Action.Client(c))
    ensures Moves(s, Do(s, Action.Client(c)), w, if s.committers[c].Emplace? then [s.committers[c].task] else [], [])
  {
    hide Inv;
  }

  lemma OthersMoveNothing(s: State, a: Action, w: nat)
    requires Inv(s) && Enabled(s, a) && !a.Work? && !a.Client?
    ensures Moves(s, Do(s, a), w, [], [])
  {
    hide Inv;
  }

  /** What a step does to the queue, the logs and the hands: only a worker takes, and only
      from the front; only a commit adds, and only at the back. */
  lemma StepOnTasks(s: State, a: Action) returns (w: nat, inn: seq<int>, out: seq<int>)
    requires Inv(s) && Enabled(s, a)
    ensures Moves(s, Do(s, a), w, inn, out)
    ensures out != [] ==> a == Work(w)
    ensures inn != [] ==> a.Client?
  {
    hide Inv, Do, Moves;
    w, inn, out := 0, [], [];
    match a
    case Work(v) =>
      WorkMoves(s, v);
      w, out := v, if s.workers[v].TakeTask? && s.tasks != [] then [s.tasks[0]] else [];
    case Client(c) =>
      ClientMoves(s, c, w);
      inn := if s.committers[c].Emplace? then [s.committers[c].task] else [];
    case _ =>
      OthersMoveNothing(s, a, w);
  }

  lemma MovesKeepOrder(s: State, n: State, w: nat, inn: seq<int>, out: seq<int>)
    requires InOrder(s) && Moves(s, n, w, inn, out)
    ensures InOrder(n)
  {
    QueueMoves(s.taken, w, s.tasks, n.tasks, inn, out);
    hide Entries, Of, InHand, Tagged;
    forall u: nat | u < |n.workers| ensures Of(n.taken, u) == n.ran[u] + InHand(n.workers[u]) {
      assert Of(s.taken, u) == s.ran[u] + InHand(s.workers[u]);
      OfTagged(s.taken, w, out, u);
    }
  }

  lemma StepInOrder(s: State, a: Action)
    requires Inv(s) && InOrder(s) && Enabled(s, a)
    ensures InOrder(Do(s, a))
  {
    hide Do, InOrder, Moves, Inv;
    var w, inn, out := StepOnTasks(s, a);
    MovesKeepOrder(s, Do(s, a), w, inn, out);
  }

  // ----- counting

  function Awake(p: Worker): int {
    if p.Woken? || (p.WaitTest? && p.woken) || (p.TakeTask? && p.woken) then 1 else 0
  }

  /** A committed task whose notification is still to come. */
  function Notifying(p: Committer): int { if p.UnlockPush? || p.NotifyOne? then 1 else 0 }

  function Running(p: Worker): int { if p.RunTask? || p.IncCount? then 1 else 0 }

  /** If a worker sleeps, every queued task has a woken worker or a notification coming;
      and the advertised number of free threads is exact. */
  ghost predicate Counted(s: State) {
    && (SomeoneSleeps(s) ==> |s.tasks| <= Sum(Awake, s.workers) + Sum(Notifying, s.committers))
    && s.threadNum + Sum(Running, s.workers) == s.size
  }

  lemma {:induction false} WakeAllSums(ws: seq<Worker>)
    ensures Sum(Running, WakeAll(ws)) == Sum(Running, ws)
  {
    if ws != [] {
      assert WakeAll(ws)[1..] == WakeAll(ws[1..]);
      WakeAllSums(ws[1..]);
    }
  }

  /** How one statement of a worker moves the counters, weighed by where it stands. */
  lemma WorkBalance(s: State, w: nat)
    requires Shape(s) && w < |s.workers| && !s.workers[w].Sleeping? && !s.workers[w].Exited?
    ensures var n := WorkStep(s, w); var (p, q) := (s.workers[w], n.workers[w]);
      && n.workers == s.workers[w := q] && n.committers == s.committers && n.size == s.size
      && n.threadNum + Running(q) == s.threadNum + Running(p)
  {
  }

  /** A worker stops being awake only by taking a task or finding none. */
  lemma WorkAwake(s: State, w: nat)
    requires Inv(s) && w < |s.workers| && !s.workers[w].Sleeping?
    ensures var n := WorkStep(s, w); var (p, q) := (s.workers[w], n.workers[w]);
      && (q.Sleeping? || Awake(q) < Awake(p) ==> |n.tasks| == 0 || |n.tasks| < |s.tasks|)
      && Awake(p) <= Awake(q) + 1 && |n.tasks| <= |s.tasks|
  {
    assert WorkerInv(s, w);
    hide Inv;
  }

  lemma WorkStepCounted(s: State, w: nat)
    requires Inv(s) && Counted(s) && Enabled(s, Work(w))
    ensures Counted(Do(s, Work(w)))
  {
    WorkBalance(s, w);
    WorkAwake(s, w);
    var n := Do(s, Work(w));
    var q := n.workers[w];
    hide Sum, Do, Inv, Running, WorkStep;
    SumUpdate(Awake, s.workers, w, q);
    SumUpdate(Running, s.workers, w, q);
    SumNonneg(Awake, n.workers);
    SumNonneg(Notifying, n.committers);
    if u: nat :| u < |n.workers| && n.workers[u].Sleeping? {
      if u != w {
        assert s.workers[u].Sleeping?;
      }
    }
  }

  lemma OtherStepCounted(s: State, a: Action)
    requires Inv(s) && Counted(s) && Enabled(s, a) && !a.Work?
    ensures Counted(Do(s, a))
  {
    hide Sum;
    var n := Do(s, a);
    match a
    case Spurious(w) =>
      SumUpdate(Awake, s.workers, w, Woken);
      SumUpdate(Running, s.workers, w, Woken);
      assert SomeoneSleeps(s);
    case Commit(c, x) =>
      SumUpdate(Notifying, s.committers, c, LoadStop(x));
    case Client(c) =>
      SumUpdate(Notifying, s.committers, c, n.committers[c]);
    case Notify(c, w) =>
      SumUpdate(Awake, s.workers, w, Woken);
      SumUpdate(Running, s.workers, w, Woken);
      SumUpdate(Notifying, s.committers, c, Ready);
      assert SomeoneSleeps(s);
    case Stop =>
      WakeAllSums(s.workers);
  }

  lemma InitGood(s: State)
    requires Init(s)
    ensures Good(s)
  {
    SumConstant(Awake, s.workers, 0);
    SumConstant(Running, s.workers, 0);
    SumConstant(Notifying, s.committers, 0);
  }

  ghost predicate Good(s: State) { Inv(s) && InOrder(s) && Counted(s) }

  lemma EveryRunIsGood(run: seq<State>)
    requires IsRun(Init, Next, run)
    ensures forall k :: 0 <= k < |run| ==> Good(run[k])
  {
    forall s | Init(s) ensures Good(s) { InitGood(s); }
    forall s, t | Good(s) && Next(s, t) ensures Good(t) {
      var a :| Enabled(s, a) && t == Do(s, a);
      StepInv(s, a);
      StepInOrder(s, a);
      if a.Work? { WorkStepCounted(s, a.w); } else { OtherStepCounted(s, a); }
    }
    Invariance(Init, Next, Good, run);
  }

  /** In any interleaving of commits, workers, spurious wakeups and a stop: tasks are taken
      in commit order and at most once, each by the worker that runs it, once. */
  lemma DispatchInCommitOrder(run: seq<State>, k: nat)
    requires IsRun(Init, Next, run) && k < |run|
    ensures Entries(run[k].taken) + run[k].tasks == Entries(run[k].accepted)
    ensures forall w: nat :: w < |run[k].workers| && w < |run[k].ran| ==>
      Of(run[k].taken, w) == run[k].ran[w] + InHand(run[k].workers[w])
  {
    EveryRunIsGood(run);
    assert Good(run[k]);
  }

  /** No committed task is left to a sleeping pool: if a worker sleeps, woken workers and
      notifications under way are at least as many as the queued tasks. */
  lemma NoTaskIsForgotten(run: seq<State>, k: nat)
    requires IsRun(Init, Next, run) && k < |run|
    ensures SomeoneSleeps(run[k]) ==>
      |run[k].tasks| <= Sum(Awake, run[k].workers) + Sum(Notifying, run[k].committers)
  {
    EveryRunIsGood(run);
    assert Good(run[k]);
  }

  /** The free-thread counter plus the workers between its two updates is the pool size. */
  lemma ThreadCountIsExact(run: seq<State>, k: nat)
    requires IsRun(Init, Next, run) && k < |run|
    ensures run[k].threadNum + Sum(Running, run[k].workers) == run[k].size
    ensures 0 <= run[k].threadNum <= run[k].size
    ensures run[k].size == run[0].size
  {
    EveryRunIsGood(run);
    assert Good(run[k]);
    SumNonneg(Running, run[k].workers);
    RunningBound(run[k].workers);
    SizeIsFixed(run, k);
  }

  lemma {:induction false} RunningBound(ws: seq<Worker>)
    ensures Sum(Running, ws) <= |ws|
  {
    if ws != [] {
      RunningBound(ws[1..]);
    }
  }

  lemma SizeIsKept(s: State, a: Action)
    requires Enabled(s, a)
    ensures Do(s, a).size == s.size && |Do(s, a).workers| == |s.workers|
  {
  }

  lemma {:induction false} SizeIsFixed(run: seq<State>, k: nat)
    requires IsRun(Init, Next, run) && k < |run|
    ensures run[k].size == run[0].size && |run[k].workers| == |run[0].workers|
  {
    if k > 0 {
      SizeIsFixed(run, k - 1);
      assert Next(run[k - 1], run[k]);
      var a :| Enabled(run[k - 1], a) && run[k] == Do(run[k - 1], a);
      SizeIsKept(run[k - 1], a);
    }
  }

  /** Once `stop_` is set each worker takes at most one more task, and afterwards only runs
      it and leaves. */
  lemma AtMostOneLateTask(run: seq<State>, k: nat, w: nat)
    requires IsRun(Init, Next, run) && k < |run| && w < |run[k].workers|
    ensures w < |run[k].late| && run[k].late[w] <= 1
    ensures run[k].late[w] == 1 ==> run[k].stop && PastTake(run[k].workers[w])
  {
    EveryRunIsGood(run);
    assert Good(run[k]);
    assert WorkerInv(run[k], w);
  }

  // ----- a pool at rest

  /** Before the flag is set no worker has left, and none comes past the wait in vain. */
  ghost predicate AtWork(s: State) {
    && |s.workers| >= 1
    && (!s.stop ==> forall w: nat :: w < |s.workers| ==>
          !s.workers[w].Exited? && (s.workers[w].TakeTask? ==> s.tasks != []))
  }

  lemma WorkAtWork(s: State, w: nat, v: nat)
    requires Inv(s) && AtWork(s) && Enabled(s, Work(w)) && !s.stop && v < |s.workers|
    ensures var n := WorkStep(s, w);
      |n.workers| == |s.workers| && !n.workers[v].Exited? && (n.workers[v].TakeTask? ==> n.tasks != [])
  {
    assert WorkerInv(s, w) && WorkerInv(s, v);
    hide Inv;
    if v != w {
      assert WorkStep(s, w).workers[v] == s.workers[v];
    }
  }

  lemma StepAtWork(s: State, a: Action)
    requires Inv(s) && AtWork(s) && Enabled(s, a)
    ensures AtWork(Do(s, a))
  {
    if a.Work? {
      if !s.stop {
        forall v: nat | v < |s.workers|
          ensures var n := WorkStep(s, a.w); !n.workers[v].Exited? && (n.workers[v].TakeTask? ==> n.tasks != [])
        {
          WorkAtWork(s, a.w, v);
        }
      }
      StopStaysSet(s, a.w);
      hide Inv, WorkStep;
    } else {
      hide Inv, WorkStep;
    }
  }

  lemma StopStaysSet(s: State, w: nat)
    requires Shape(s) && w < |s.workers|
    ensures WorkStep(s, w).stop == s.stop && |WorkStep(s, w).workers| == |s.workers|
  {
  }

  /** Nothing can happen any more but a spurious wakeup, a new call of `commit`, or `stop`. */
  ghost predicate Resting(s: State) {
    forall a :: Enabled(s, a) ==> a.Spurious? || a.Commit? || a.Stop?
  }

  lemma RestingMeansFree(s: State)
    requires Inv(s) && Resting(s)
    ensures s.holder == None
  {
    match s.holder
    case Some(Pool(w)) => assert WorkerInv(s, w) && Enabled(s, Work(w));
    case Some(Client(c)) => assert Enabled(s, Action.Client(c));
    case None =>
  }

  lemma RestingPoints(s: State)
    requires Inv(s) && AtWork(s) && Resting(s) && !s.stop
    ensures forall w: nat :: w < |s.workers| ==> s.workers[w].Sleeping?
    ensures forall c: nat :: c < |s.committers| ==> s.committers[c].Ready?
  {
    RestingMeansFree(s);
    forall w: nat | w < |s.workers| ensures s.workers[w].Sleeping? {
      assert !Enabled(s, Work(w));
    }
    assert s.workers[0].Sleeping?;
    forall c: nat | c < |s.committers| ensures s.committers[c].Ready? {
      assert !Enabled(s, Action.Client(c)) && !Enabled(s, Notify(c, 0));
    }
  }

  lemma RestingPoolIsDone(s: State)
    requires Good(s) && AtWork(s) && Resting(s) && !s.stop
    ensures s.tasks == [] && Entries(s.taken) == Entries(s.accepted) && s.threadNum == s.size
    ensures forall w: nat :: w < |s.workers| ==>
      s.workers[w].Sleeping? && w < |s.ran| && s.ran[w] == Of(s.taken, w)
  {
    RestingPoints(s);
    SumConstant(Awake, s.workers, 0);
    SumConstant(Running, s.workers, 0);
    SumConstant(Notifying, s.committers, 0);
    assert s.workers[0].Sleeping?;
  }

  /** As long as the pool is not stopped every committed task gets run: a run that has come
      to rest has an empty queue, all workers asleep, and every accepted task taken, in order,
      and run by the worker that took it. */
  lemma EveryTaskIsRunUnlessStopped(run: seq<State>)
    requires IsRun(Init, Next, run) && Resting(Last(run)) && Last(run).stopper.NotStopping?
    ensures var s := Last(run);
      && s.tasks == [] && Entries(s.taken) == Entries(s.accepted) && s.threadNum == s.size
      && forall w: nat :: w < |s.workers| ==>
           s.workers[w].Sleeping? && w < |s.ran| && s.ran[w] == Of(s.taken, w)
  {
    EveryRunIsGood(run);
    assert AtWork(run[0]);
    hide Do, Enabled, Init, Good, AtWork, Resting;
    var n := 0;
    while n + 1 < |run|
      invariant 0 <= n < |run| && AtWork(run[n])
    {
      assert Next(run[n], run[n + 1]) && Good(run[n]);
      var a :| Enabled(run[n], a) && run[n + 1] == Do(run[n], a);
      GoodMeansInv(run[n]);
      StepAtWork(run[n], a);
      n := n + 1;
    }
    GoodMeansInv(Last(run));
    RestingPoolIsDone(Last(run));
  }

  lemma GoodMeansInv(s: State)
    requires Good(s)
    ensures Inv(s) && (s.stop <==> !s.stopper.NotStopping?)
  {
  }

  /** Statements to the next rest, and how much a queued task is worth in them. */
  function WorkerRank(p: Worker): int {
    match p
    case Exited => 0 case Sleeping => 0 case FallAsleep => 1 case TakeTask(_) => 1 case WaitTest(_) => 2
    case LockTasks => 3 case Woken => 3 case LoopTest => 4 case IncCount => 5
    case RunTask(_) => 6 case DecCount(_) => 7 case UnlockTasks(_) => 8
  }

  function CommitterRank(p: Committer): int {
    match p
    case Ready => 0 case NotifyOne => 4 case UnlockPush => 5
    case Emplace(_) => 26 case LockPush(_) => 27 case LoadStop(_) => 28
  }

  function StopperRank(p: Stopper, workers: nat): int {
    match p
    case NotStopping => 3 * workers + 2 case NotifyAll => 3 * workers + 1 case Joining => 0
  }

  function Unrest(s: State): int {
    20 * |s.tasks| + Sum(WorkerRank, s.workers) + Sum(CommitterRank, s.committers)
    + StopperRank(s.stopper, |s.workers|)
  }

  lemma {:induction false} WakingCosts(ws: seq<Worker>)
    ensures Sum(WorkerRank, WakeAll(ws)) <= Sum(WorkerRank, ws) + 3 * |ws|
  {
    if ws != [] {
      assert WakeAll(ws)[1..] == WakeAll(ws[1..]);
      WakingCosts(ws[1..]);
    }
  }

  lemma WorkCalms(s: State, w: nat)
    requires Shape(s) && w < |s.workers| && !s.workers[w].Sleeping? && !s.workers[w].Exited?
    ensures var n := WorkStep(s, w); var (p, q) := (s.workers[w], n.workers[w]);
      && n.workers == s.workers[w := q] && n.committers == s.committers && n.stopper == s.stopper
      && 20 * |n.tasks| + WorkerRank(q) < 20 * |s.tasks| + WorkerRank(p)
  {
  }

  lemma ClientCalms(s: State, c: nat)
    requires c < |s.committers| && !s.committers[c].Ready?
    ensures var n := ClientStep(s, c); var (p, q) := (s.committers[c], n.committers[c]);
      && n.committers == s.committers[c := q] && n.workers == s.workers && n.stopper == s.stopper
      && 20 * |n.tasks| + CommitterRank(q) < 20 * |s.tasks| + CommitterRank(p)
  {
  }

  /** The pool comes to rest if it is left alone: every step but a new commit and a spurious
      wakeup lowers what is left to do, and those raise it by a fixed amount. */
  lemma PoolComesToRest(s: State, a: Action)
    requires Enabled(s, a)
    ensures 0 <= Unrest(Do(s, a))
    ensures Unrest(Do(s, a)) < Unrest(s) + (if a.Commit? then 29 else if a.Spurious? then 4 else 0)
  {
    UnrestIsNonneg(Do(s, a));
    match a
    case Work(w) =>
      WorkCalms(s, w);
      hide Sum, WorkStep;
      SumUpdate(WorkerRank, s.workers, w, WorkStep(s, w).workers[w]);
    case Spurious(w) =>
      hide Sum;
      SumUpdate(WorkerRank, s.workers, w, Woken);
    case Commit(c, x) =>
      hide Sum;
      SumUpdate(CommitterRank, s.committers, c, LoadStop(x));
    case Client(c) =>
      ClientCalms(s, c);
      hide Sum, ClientStep;
      SumUpdate(CommitterRank, s.committers, c, ClientStep(s, c).committers[c]);
    case Notify(c, w) =>
      hide Sum;
      SumUpdate(WorkerRank, s.workers, w, Woken);
      SumUpdate(CommitterRank, s.committers, c, Ready);
    case Stop =>
      hide Sum;
      WakingCosts(s.workers);
  }

  lemma UnrestIsNonneg(s: State)
    ensures Unrest(s) >= 0
  {
    SumNonneg(WorkerRank, s.workers);
    SumNonneg(CommitterRank, s.committers);
  }

  // ----- what becomes of a commit

  ghost predicate Step(s: State, a: Action, n: State) {
    Enabled(s, a) && n == Do(s, a)
  }

  /** The calls of `commit` among some actions, with their tasks. */
  function Commits(acts: seq<Action>): Log<int> {
    if acts == [] then [] else
    Commits(acts[..|acts| - 1]) +
      match acts[|acts| - 1]
      case Commit(c, x) => [(c, x)]
      case _ => []
  }

  /** What a client calls `commit` with in one action. */
  function Asked(a: Action): seq<int> { if a.Commit? then [a.task] else [] }

  /** The client that moves, or none of n. */
  function Mover(a: Action, n: nat): nat { if a.Commit? || a.Client? || a.Notify? then a.c else n }

  lemma CommitsOneMore(done: seq<Action>, a: Action, n: nat)
    ensures Commits(done + [a]) == Commits(done) + Tagged(Mover(a, n), Asked(a))
  {
    assert (done + [a])[..|done + [a]| - 1] == done;
  }

  /** The task of a commit that has not been answered yet. */
  function InFlight(p: Committer): seq<int> {
    match p
    case LoadStop(x) => [x]
    case _ => Pushing(p)
  }

  /** The task of a commit that has found the flag clear and has yet to push. */
  function Pushing(p: Committer): seq<int> {
    match p
    case LockPush(x) => [x]
    case Emplace(x) => [x]
    case _ => []
  }

  /** What client c has called `commit` with was accepted, then refused, then is under way. */
  ghost predicate ClientAnswered(s: State, done: seq<Action>, c: nat)
    requires c < |s.committers|
  {
    && Of(Commits(done), c) == Of(s.accepted, c) + Of(s.refused, c) + InFlight(s.committers[c])
    && (Of(s.refused, c) != [] ==> s.stop && Pushing(s.committers[c]) == [])
  }

  ghost predicate Answered(s: State, done: seq<Action>) {
    && (forall c: nat :: c < |s.committers| ==> ClientAnswered(s, done, c))
    && Within(Commits(done), |s.committers|) && Within(s.accepted, |s.committers|) && Within(s.refused, |s.committers|)
    && (s.refused != [] ==> s.stop)
  }

  /** What a step does to the answers: only a commit under way gets one, its own; it is
      accepted if it was pushing, and refused only if the flag is set. */
  ghost predicate Answers(s: State, n: State, c: nat, asked: seq<int>, yes: seq<int>, no: seq<int>) {
    && |asked| <= 1 && |yes| <= 1 && |no| <= 1 && |n.committers| == |s.committers| && (s.stop ==> n.stop)
    && n.accepted == s.accepted + Tagged(c, yes) && n.refused == s.refused + Tagged(c, no)
    && (no != [] ==> s.stop && yes == [])
    && (forall d: nat :: d < |s.committers| && d != c ==> n.committers[d] == s.committers[d])
    && if c < |s.committers| then
         var (p, q) := (s.committers[c], n.committers[c]);
         && InFlight(p) + asked == yes + no + InFlight(q)
         && (yes != [] ==> yes == Pushing(p) && Pushing(q) == [])
         && (s.stop && yes == [] ==> Pushing(q) == Pushing(p))
         && (no != [] ==> Pushing(q) == [])
       else asked == yes == no == []
  }

  lemma StepAnswers(s: State, a: Action) returns (yes: seq<int>, no: seq<int>)
    requires Enabled(s, a)
    ensures Answers(s, Do(s, a), Mover(a, |s.committers|), Asked(a), yes, no)
  {
    yes, no := [], [];
    match a
    case Client(c) =>
      match s.committers[c] {
        case LoadStop(x) => no := if s.stop then [x] else [];
        case Emplace(x) => yes := [x];
        case _ =>
      }
    case _ =>
  }

  /** Whoever is asked and answers in order keeps the order: accepted, refused, in flight. */
  lemma AnswersInOrder(accepted: seq<int>, refused: seq<int>, before: seq<int>, asked: seq<int>,
                       yes: seq<int>, no: seq<int>, after: seq<int>)
    requires before + asked == yes + no + after && (yes != [] ==> refused == [])
    ensures accepted + refused + before + asked == (accepted + yes) + (refused + no) + after
  {
    Regroup(accepted + refused, before, asked);
    Regroup(accepted + refused, yes + no, after);
    Regroup(accepted, refused, yes + no);
    Regroup(accepted, yes, refused + no);
    assert refused + (yes + no) == yes + (refused + no);
  }

  lemma OneAnswered(s: State, n: State, done: seq<Action>, a: Action, c: nat, yes: seq<int>, no: seq<int>, d: nat)
    requires Answers(s, n, c, Asked(a), yes, no) && d < |s.committers| && ClientAnswered(s, done, d)
    requires Commits(done + [a]) == Commits(done) + Tagged(c, Asked(a))
    ensures ClientAnswered(n, done + [a], d)
  {
    OfTagged(Commits(done), c, Asked(a), d);
    OfTagged(s.accepted, c, yes, d);
    OfTagged(s.refused, c, no, d);
    hide Of, Commits, Tagged, InFlight, Pushing, Asked;
    if d == c {
      AnswersInOrder(Of(s.accepted, d), Of(s.refused, d), InFlight(s.committers[d]), Asked(a),
                     yes, no, InFlight(n.committers[d]));
    } else {
      assert Of(n.accepted, d) == Of(s.accepted, d) && Of(n.refused, d) == Of(s.refused, d);
      assert Of(Commits(done + [a]), d) == Of(Commits(done), d);
    }
  }

  lemma StepKeepsAnswers(s: State, done: seq<Action>, a: Action)
    requires Enabled(s, a) && Answered(s, done)
    ensures Answered(Do(s, a), done + [a])
  {
    var n := Do(s, a);
    var c := Mover(a, |s.committers|);
    var yes, no := StepAnswers(s, a);
    CommitsOneMore(done, a, |s.committers|);
    hide Do, Enabled, Of, Commits, ClientAnswered, Mover, InFlight, Pushing;
    forall d: nat | d < |n.committers| ensures ClientAnswered(n, done + [a], d) {
      OneAnswered(s, n, done, a, c, yes, no, d);
    }
    WithinTagged(Commits(done), c, Asked(a), |s.committers|);
    WithinTagged(s.accepted, c, yes, |s.committers|);
    WithinTagged(s.refused, c, no, |s.committers|);
  }

  lemma WithinTagged(log: Log<int>, c: nat, effect: seq<int>, n: nat)
    requires |effect| <= 1 && Within(log, n) && (effect != [] ==> c < n)
    ensures Within(log + Tagged(c, effect), n)
    ensures log + Tagged(c, effect) != [] ==> log != [] || effect != []
  {
  }

  lemma TracesAreAnswered(run: seq<State>, acts: seq<Action>)
    requires IsTrace(Init, Step, run, acts)
    ensures forall k :: 0 <= k < |run| ==> Answered(run[k], acts[..k])
    ensures Answered(Last(run), acts)
  {
    forall s | Init(s) ensures Answered(s, []) {}
    forall s, done, a, t | Answered(s, done) && Step(s, a, t) ensures Answered(t, done + [a]) {
      StepKeepsAnswers(s, done, a);
    }
    hide Answered, Init, Step;
    TraceInvariance(Init, Step, Answered, run, acts);
  }

  /** Every commit gets the answer it should. At any moment the tasks a client has called
      `commit` with, in order, are those that were accepted, then those that were refused,
      then the one under way; and nothing at all is refused unless the flag is set. */
  lemma CommitsAreAnswered(run: seq<State>, acts: seq<Action>, c: nat)
    requires IsTrace(Init, Step, run, acts) && c < |Last(run).committers|
    ensures var s := Last(run);
      && Of(Commits(acts), c) == Of(s.accepted, c) + Of(s.refused, c) + InFlight(s.committers[c])
      && (!s.stop ==> s.refused == [])
  {
    TracesAreAnswered(run, acts);
    assert ClientAnswered(Last(run), acts, c);
  }

  /** Once the flag is set exactly the commits that had looked at it before are still accepted:
      what client c has got accepted, and is about to push, does not change any more. */
  lemma NothingElseIsAcceptedAfterStop(run: seq<State>, j: nat, k: nat, c: nat)
    requires IsRun(Init, Next, run) && j <= k < |run| && run[j].stop && c < |run[j].committers|
    ensures run[k].stop && c < |run[k].committers|
    ensures Of(run[k].accepted, c) + Pushing(run[k].committers[c])
      == Of(run[j].accepted, c) + Pushing(run[j].committers[c])
    decreases k
  {
    if j < k {
      NothingElseIsAcceptedAfterStop(run, j, k - 1, c);
      assert Next(run[k - 1], run[k]);
      var a :| Enabled(run[k - 1], a) && run[k] == Do(run[k - 1], a);
      StepAfterStop(run[k - 1], a, c);
    }
  }

  lemma StepAfterStop(s: State, a: Action, c: nat)
    requires Enabled(s, a) && s.stop && c < |s.committers|
    ensures var n := Do(s, a);
      && n.stop && c < |n.committers|
      && Of(n.accepted, c) + Pushing(n.committers[c]) == Of(s.accepted, c) + Pushing(s.committers[c])
  {
    var yes, no := StepAnswers(s, a);
    var m := Mover(a, |s.committers|);
    hide Do, Enabled, Of, Mover, Pushing, InFlight, Asked, Tagged;
    OfTagged(s.accepted, m, yes, c);
  }

  /** In a run that has come to rest without a stop, the tasks that were run are exactly the
      tasks `commit` was called with. */
  lemma EveryCommittedTaskIsRun(run: seq<State>, acts: seq<Action>)
    requires IsTrace(Init, Step, run, acts) && Resting(Last(run)) && Last(run).stopper.NotStopping?
    ensures Last(run).refused == []
    ensures multiset(Concat(Last(run).ran)) == multiset(Entries(Commits(acts)))
  {
    TracesAreRuns(run, acts);
    EveryTaskIsRunUnlessStopped(run);
    EveryRunIsGood(run);
    TracesAreAnswered(run, acts);
    SizeIsFixed(run, |run| - 1);
    assert |run[0].workers| > 0;
    assert Good(Last(run)) && |Last(run).ran| == |Last(run).workers|;
    hide Init, Next, Step, Good, Answered, Resting, IsTrace;
    RestingIsAnswered(Last(run), acts);
  }

  lemma TracesAreRuns(run: seq<State>, acts: seq<Action>)
    requires IsTrace(Init, Step, run, acts)
    ensures IsRun(Init, Next, run)
  {
    hide Do, Enabled, Init;
    TraceIsRun(Init, Step, Next, run, acts);
  }

  lemma RestingCommittersAreReady(s: State, c: nat)
    requires Inv(s) && Resting(s) && |s.workers| > 0 && s.workers[0].Sleeping? && c < |s.committers|
    ensures s.committers[c].Ready?
  {
    RestingMeansFree(s);
    assert !Enabled(s, Action.Client(c)) && !Enabled(s, Notify(c, 0));
  }

  lemma RestingIsAnswered(s: State, done: seq<Action>)
    requires Good(s) && Answered(s, done) && Resting(s) && s.stopper.NotStopping?
    requires Entries(s.taken) == Entries(s.accepted) && |s.workers| > 0 && s.workers[0].Sleeping?
    requires |s.ran| == |s.workers| && forall w: nat :: w < |s.workers| ==> s.ran[w] == Of(s.taken, w)
    ensures s.refused == [] && multiset(Concat(s.ran)) == multiset(Entries(Commits(done)))
  {
    var n := |s.committers|;
    assert s.refused == [] && Within(s.taken, |s.workers|) && Inv(s);
    hide Good, Inv, Resting, Commits, Entries, Within;
    forall c: nat | c < n ensures Of(Commits(done), c) == Of(s.accepted, c) {
      assert ClientAnswered(s, done, c);
      RestingCommittersAreReady(s, c);
    }
    assert Parts(Commits(done), n) == Parts(s.accepted, n);
    assert Parts(s.taken, |s.workers|) == s.ran;
    EntriesByThread(Commits(done), n);
    EntriesByThread(s.accepted, n);
    EntriesByThread(s.taken, |s.workers|);
  }

  // ----- whether `stop` gets to join its workers

  /** The state in which `notify_all` leaves the pool; `stop` then joins the workers. */
  function Notified(s: State): State {
    s.(workers := WakeAll(s.workers), stopper := Joining)
  }

  ghost function AfterNotifying(s: State): State -> bool {
    t => t == Notified(s)
  }

  predicate InThePool(p: Worker) { !p.Sleeping? && !p.FallAsleep? }

  /** The flag is set and notified, and no worker but w sleeps or has decided to. */
  ghost predicate AwakeBut(s: State, w: nat) {
    Inv(s) && s.stopper.Joining? && forall v: nat :: v < |s.workers| && v != w ==> InThePool(s.workers[v])
  }

  /** Every worker will come to look at the flag before it can sleep again. */
  ghost predicate Leaving(s: State) {
    Inv(s) && s.stopper.Joining? && forall w: nat :: w < |s.workers| ==> InThePool(s.workers[w])
  }

  lemma StepKeepsLeaving(s: State, a: Action)
    requires Leaving(s) && Enabled(s, a)
    ensures Leaving(Do(s, a))
  {
    StepInv(s, a);
  }

  /** Nothing can happen any more but a spurious wakeup or a new call of `commit`. */
  ghost predicate Quiet(s: State) {
    forall a :: Enabled(s, a) ==> a.Spurious? || a.Commit?
  }

  /** A pool that has gone quiet after a stop has lost every worker that does not sleep. */
  lemma QuietMeansLeftOrAsleep(s: State)
    requires Inv(s) && s.stopper.Joining? && Quiet(s)
    ensures forall w :: 0 <= w < |s.workers| ==> s.workers[w].Exited? || s.workers[w].Sleeping?
    ensures (forall w :: 0 <= w < |s.workers| ==> s.workers[w].Exited?) <==> !SomeoneSleeps(s)
  {
    RestingMeansFree(s);
    forall w: nat | w < |s.workers| ensures s.workers[w].Exited? || s.workers[w].Sleeping? {
      assert !Enabled(s, Work(w));
    }
  }

  /** Steps a worker takes until it has left, once the flag is set and if it never sleeps. */
  function StepsToExit(p: Worker): int {
    match p
    case Exited => 0 case LoopTest => 1 case IncCount => 2 case RunTask(_) => 3 case DecCount(_) => 4
    case UnlockTasks(_) => 5 case TakeTask(_) => 6 case WaitTest(_) => 7
    case LockTasks => 8 case Woken => 8 case FallAsleep => 1 case Sleeping => 0
  }

  lemma WorkShortens(s: State, w: nat)
    requires Inv(s) && s.stopper.Joining? && Enabled(s, Work(w)) && InThePool(s.workers[w])
    ensures var (p, q) := (s.workers[w], Do(s, Work(w)).workers[w]);
      0 <= StepsToExit(q) < StepsToExit(p) && InThePool(q) && Do(s, Work(w)).workers == s.workers[w := q]
  {
    assert s.stop;
    hide Inv;
  }

  lemma OthersLeaveWorkersAlone(s: State, a: Action)
    requires Leaving(s) && Enabled(s, a) && !a.Work?
    ensures Do(s, a).workers == s.workers
  {
    hide Inv;
  }

  /** After the notification nothing adds to the work left for a pool in which none sleeps,
      and every step of a worker takes some away: its workers leave within eight steps each. */
  lemma WorkersLeave(s: State, a: Action)
    requires Leaving(s) && Enabled(s, a)
    ensures var n := Do(s, a);
      && 0 <= Sum(StepsToExit, n.workers) <= Sum(StepsToExit, s.workers) <= 8 * |s.workers|
      && (a.Work? ==> Sum(StepsToExit, n.workers) < Sum(StepsToExit, s.workers))
  {
    StepsAreFew(s.workers);
    SumNonneg(StepsToExit, Do(s, a).workers);
    hide Sum, Inv, StepsToExit, WorkStep, ClientStep, Do;
    if a.Work? {
      WorkShortens(s, a.w);
      SumUpdate(StepsToExit, s.workers, a.w, Do(s, a).workers[a.w]);
    } else {
      OthersLeaveWorkersAlone(s, a);
    }
  }

  lemma {:induction false} StepsAreFew(ws: seq<Worker>)
    ensures Sum(StepsToExit, ws) <= 8 * |ws|
  {
    if ws != [] {
      StepsAreFew(ws[1..]);
    }
  }

  ghost predicate SomeoneFallsAsleep(s: State) {
    exists w: nat :: w < |s.workers| && s.workers[w].FallAsleep?
  }

  /** A `commit` is past its look at the flag and has its task still to push. */
  ghost predicate PushIsComing(s: State) {
    exists c: nat :: c < |s.committers| && s.committers[c].LockPush?
  }

  /** From here on the pool can go quiet with a worker asleep, which `stop` joins for ever. */
  ghost predicate CanHang(s: State) {
    exists run :: IsRun(AfterNotifying(s), Next, run) && HangsAt(Last(run))
  }

  ghost predicate HangsAt(s: State) { Quiet(s) && SomeoneSleeps(s) }

  /** `stop_` is stored and notified without the mutex. When `notify_all` is called, `stop`
      can still wait for ever exactly if a worker sits between reading the flag and its wait,
      and no `commit` is under way that will push a task and notify that worker. */
  lemma StopHangsExactlyIfAWorkerIsMissed(s: State)
    requires Inv(s) && s.stopper.NotifyAll?
    ensures CanHang(s) <==> SomeoneFallsAsleep(s) && !PushIsComing(s)
  {
    NotifyingKeepsInv(s);
    if w: nat :| w < |s.workers| && s.workers[w].FallAsleep? {
      OneFallsAsleep(s, w);
      if c: nat :| c < |s.committers| && s.committers[c].LockPush? {
        forall run | IsRun(AfterNotifying(s), Next, run) && HangsAt(Last(run)) ensures false {
          PromiseIsKept(s, w, c, run);
        }
      } else {
        var run := FallAsleepForEver(s, w);
      }
    } else {
      forall run | IsRun(AfterNotifying(s), Next, run) && HangsAt(Last(run)) ensures false {
        NobodyStays(s, run);
      }
    }
  }

  lemma NotifyingKeepsInv(s: State)
    requires Inv(s) && s.stopper.NotifyAll?
    ensures Inv(Notified(s))
  {
    assert Notified(s) == Do(s, Stop);
    StepInv(s, Stop);
  }

  lemma OneFallsAsleep(s: State, w: nat)
    requires Inv(s) && s.stopper.NotifyAll? && w < |s.workers| && s.workers[w].FallAsleep?
    ensures AwakeBut(Notified(s), w) && Notified(s).workers[w].FallAsleep?
  {
    NotifyingKeepsInv(s);
    forall v: nat | v < |s.workers| && v != w ensures !s.workers[v].FallAsleep? {
      assert WorkerInv(s, v) && WorkerInv(s, w);
    }
  }

  /** If no worker is falling asleep when it is notified, none is ever asleep again. */
  lemma NobodyStays(s: State, run: seq<State>)
    requires Inv(s) && s.stopper.NotifyAll? && !SomeoneFallsAsleep(s)
    requires IsRun(AfterNotifying(s), Next, run)
    ensures forall k :: 0 <= k < |run| ==> Leaving(run[k]) && !SomeoneSleeps(run[k])
  {
    NotifyingKeepsInv(s);
    assert Leaving(Notified(s));
    forall t, u | Leaving(t) && Next(t, u) ensures Leaving(u) {
      var a :| Enabled(t, a) && u == Do(t, a);
      StepKeepsLeaving(t, a);
    }
    Invariance(AfterNotifying(s), Next, Leaving, run);
  }

  /** After `notify_all` a worker can be asleep at some moment exactly if one was falling
      asleep when it was called. */
  lemma NotifyReachesAllExactlyIfNoneIsFallingAsleep(s: State)
    requires Inv(s) && s.stopper.NotifyAll?
    ensures !SomeoneFallsAsleep(s) <==>
      forall run, k :: IsRun(AfterNotifying(s), Next, run) && 0 <= k < |run| ==> !SomeoneSleeps(run[k])
  {
    if w: nat :| w < |s.workers| && s.workers[w].FallAsleep? {
      OneFallsAsleep(s, w);
      var n := Notified(s);
      var run := Extend(AfterNotifying(s), Next, [n], Do(n, Work(w)));
      assert run[1].workers[w].Sleeping? && SomeoneSleeps(run[1]);
    } else {
      forall run, k | IsRun(AfterNotifying(s), Next, run) && 0 <= k < |run| ensures !SomeoneSleeps(run[k]) {
        NobodyStays(s, run);
      }
    }
  }

  // A commit on its way wakes the worker it finds asleep.

  predicate WillPushAndNotify(p: Committer) { p.LockPush? || p.Emplace? || p.UnlockPush? || p.NotifyOne? }

  ghost predicate Promised(s: State, w: nat, c: nat) {
    && AwakeBut(s, w) && w < |s.workers| && c < |s.committers|
    && (s.workers[w].FallAsleep? ==> s.committers[c].LockPush?)
    && (s.workers[w].Sleeping? ==> WillPushAndNotify(s.committers[c]))
  }

  lemma StepKeepsPromise(s: State, a: Action, w: nat, c: nat)
    requires Promised(s, w, c) && Enabled(s, a)
    ensures Promised(Do(s, a), w, c)
  {
    StepInv(s, a);
    assert WorkerInv(s, w) && s.stop;
    if a.Work? && a.w != w {
      assert InThePool(s.workers[a.w]);
      WorkShortens(s, a.w);
    }
    hide Inv, StepsToExit;
  }

  lemma CommitCanMove(s: State, w: nat, c: nat)
    requires Promised(s, w, c) && s.workers[w].Sleeping? && s.holder == None
    ensures Enabled(s, Notify(c, w)) || Enabled(s, Action.Client(c))
  {
  }

  lemma PromiseIsKept(s: State, w: nat, c: nat, run: seq<State>)
    requires Promised(Notified(s), w, c) && IsRun(AfterNotifying(s), Next, run)
    ensures !HangsAt(Last(run))
  {
    var promise := t => Promised(t, w, c);
    forall t, u | Promised(t, w, c) && Next(t, u) ensures Promised(u, w, c) {
      var a :| Enabled(t, a) && u == Do(t, a);
      StepKeepsPromise(t, a, w, c);
    }
    Invariance(AfterNotifying(s), Next, promise, run);
    var last := Last(run);
    assert promise(last);
    if HangsAt(last) {
      RestingMeansFree(last);
      CommitCanMove(last, w, c);
    }
  }

  // Without one, the worker can fall asleep when everybody else has gone.

  /** The commits under way only have a notification to give or a refusal to take. */
  ghost predicate NoPushIsComing(s: State) {
    forall c: nat :: c < |s.committers| ==>
      s.committers[c].Ready? || s.committers[c].LoadStop? || s.committers[c].NotifyOne?
  }

  /** The commits from c on return, while w is about to sleep. */
  lemma CommitsReturn(init: State -> bool, run: seq<State>, w: nat, c: nat) returns (longer: seq<State>)
    requires IsRun(init, Next, run)
    requires var s := Last(run);
      && AwakeBut(s, w) && w < |s.workers| && s.workers[w].FallAsleep? && NoPushIsComing(s)
      && c <= |s.committers| && forall d: nat :: d < c ==> s.committers[d].Ready?
    ensures IsRun(init, Next, longer)
    ensures var n := Last(longer);
      && AwakeBut(n, w) && w < |n.workers| && n.workers[w].FallAsleep?
      && n.size == Last(run).size && |n.committers| == |Last(run).committers|
      && forall d: nat :: d < |n.committers| ==> n.committers[d].Ready?
    decreases |Last(run).committers| - c
  {
    longer := run;
    var s := Last(run);
    if c < |s.committers| {
      if !s.committers[c].Ready? {
        assert Enabled(s, Action.Client(c));
        StepInv(s, Action.Client(c));
        longer := Extend(init, Next, run, Do(s, Action.Client(c)));
      }
      longer := CommitsReturn(init, longer, w, c + 1);
    }
  }

  /** Worker w sleeps, nobody else does, and no commit is under way. */
  ghost predicate Forgotten(s: State, w: nat) {
    && AwakeBut(s, w) && w < |s.workers| && s.workers[w].Sleeping?
    && forall d: nat :: d < |s.committers| ==> s.committers[d].Ready?
  }

  /** As long as a worker besides the sleeper has not left, one of them can move. */
  lemma MoverBeside(s: State, w: nat, v: nat) returns (u: nat)
    requires Forgotten(s, w) && v < |s.workers| && v != w && !s.workers[v].Exited?
    ensures u < |s.workers| && u != w && Enabled(s, Work(u))
  {
    u := v;
    if s.holder.Some? && s.holder.value.Pool? {
      u := s.holder.value.w;
      assert WorkerInv(s, u) && WorkerInv(s, w);
    }
  }

  lemma MoveBeside(s: State, w: nat, u: nat)
    requires Forgotten(s, w) && u < |s.workers| && u != w && Enabled(s, Work(u))
    ensures var n := Do(s, Work(u));
      && Forgotten(n, w) && n.size == s.size && n.committers == s.committers
      && 0 <= Sum(StepsToExit, n.workers) < Sum(StepsToExit, s.workers)
  {
    StepInv(s, Work(u));
    WorkShortens(s, u);
    hide Inv, Sum, StepsToExit;
    SumUpdate(StepsToExit, s.workers, u, Do(s, Work(u)).workers[u]);
    WorkIsNonneg(Do(s, Work(u)).workers);
  }

  lemma WorkIsNonneg(ws: seq<Worker>)
    ensures Sum(StepsToExit, ws) >= 0
  {
    SumNonneg(StepsToExit, ws);
  }

  lemma ForgottenIsHanging(s: State, w: nat)
    requires Forgotten(s, w) && forall v: nat :: v < |s.workers| && v != w ==> s.workers[v].Exited?
    ensures HangsAt(s)
  {
  }

  /** While w sleeps and no commit is under way, all the other workers leave. */
  lemma OthersLeave(init: State -> bool, run: seq<State>, w: nat) returns (longer: seq<State>)
    requires IsRun(init, Next, run) && Forgotten(Last(run), w)
    ensures IsRun(init, Next, longer) && HangsAt(Last(longer)) && Last(longer).stopper.Joining?
    ensures Last(longer).size == Last(run).size && |Last(longer).committers| == |Last(run).committers|
    decreases Sum(StepsToExit, Last(run).workers)
  {
    longer := run;
    var s := Last(run);
    if v: nat :| v < |s.workers| && v != w && !s.workers[v].Exited? {
      var u := MoverBeside(s, w, v);
      MoveBeside(s, w, u);
      hide Do, Enabled, Forgotten, HangsAt, IsRun, Sum;
      longer := Extend(init, Next, run, Do(s, Work(u)));
      longer := OthersLeave(init, longer, w);
    } else {
      ForgottenIsHanging(s, w);
    }
  }

  lemma FallAsleepForEver(s: State, w: nat) returns (run: seq<State>)
    requires Inv(s) && AwakeBut(Notified(s), w) && w < |s.workers| && s.workers[w].FallAsleep?
    requires !PushIsComing(s)
    ensures IsRun(AfterNotifying(s), Next, run) && HangsAt(Last(run))
  {
    var n := Notified(s);
    assert WorkerInv(s, w);
    assert NoPushIsComing(n);
    run := CommitsReturn(AfterNotifying(s), [n], w, 0);
    run := SleepAndLeave(AfterNotifying(s), run, w);
  }

  lemma SleepAndLeave(init: State -> bool, run: seq<State>, w: nat) returns (longer: seq<State>)
    requires IsRun(init, Next, run)
    requires var s := Last(run);
      && AwakeBut(s, w) && w < |s.workers| && s.workers[w].FallAsleep?
      && forall d: nat :: d < |s.committers| ==> s.committers[d].Ready?
    ensures IsRun(init, Next, longer) && HangsAt(Last(longer)) && Last(longer).stopper.Joining?
    ensures Last(longer).size == Last(run).size && |Last(longer).committers| == |Last(run).committers|
  {
    var s := Last(run);
    StepInv(s, Work(w));
    longer := Extend(init, Next, run, Do(s, Work(w)));
    assert Forgotten(Last(longer), w);
    longer := OthersLeave(init, longer, w);
  }

  /** The first worker finds no task and is about to sleep; then the flag is set and notified. */
  lemma MissAWorker(size: nat, clients: nat) returns (run: seq<State>)
    requires size >= 1
    ensures IsRun(Init, Next, run)
    ensures var s := Last(run);
      && s.size == |s.workers| == size && s.committers == seq(clients, _ => Ready) && s.workers[0].FallAsleep?
      && s.stopper.Joining? && forall v :: 1 <= v < size ==> s.workers[v].LoopTest?
  {
    var s := State(size, size, false, [], None, seq(size, _ => LoopTest), seq(clients, _ => Ready), NotStopping,
                   [], [], [], seq(size, _ => []), seq(size, _ => 0));
    run := Extend(Init, Next, [s], Do(s, Work(0)));
    run := Extend(Init, Next, run, Do(Last(run), Work(0)));
    run := Extend(Init, Next, run, Do(Last(run), Work(0)));
    run := Extend(Init, Next, run, Do(Last(run), Stop));
    run := Extend(Init, Next, run, Do(Last(run), Stop));
  }

  /** So it does happen, in a pool of any size: some run ends with `stop` joining a worker
      that sleeps and nobody left to wake it. */
  lemma StopCanWaitForEver(size: nat, clients: nat) returns (run: seq<State>)
    requires size >= 1
    ensures IsRun(Init, Next, run)
    ensures var s := Last(run);
      && s.size == size && |s.committers| == clients && s.stopper.Joining? && HangsAt(s)
  {
    run := MissAWorker(size, clients);
    EveryRunIsGood(run);
    assert Good(Last(run));
    run := SleepAndLeave(Init, run, 0);
  }

  // ----- the program

  class TaskPool {
    const size: int
    var threadNum: int
    var stop: bool
    var tasks: seq<int>
    var cvMtx: Option<Owner>
    var workers: seq<Worker>
    var committers: seq<Committer>
    var stopper: Stopper
    var ran: seq<seq<int>>
    ghost var accepted: Log<int>
    ghost var refused: Log<int>
    ghost var taken: Log<int>
    ghost var late: seq<nat>

    ghost function View(): State
      reads this
    {
      State(size, threadNum, stop, tasks, cvMtx, workers, committers, stopper,
            accepted, refused, taken, ran, late)
    }

    constructor (num: int, clients: nat)
      ensures Init(View())
      ensures |workers| == (if num < 1 then 1 else num) && |committers| == clients
    {
      var n: nat := if num < 1 then 1 else num;
      size, threadNum, stop, tasks, cvMtx := n, n, false, [], None;
      workers, committers, stopper := seq(n, _ => LoopTest), seq(clients, _ => Ready), NotStopping;
      ran := seq(n, _ => []);
      accepted, refused, taken, late := [], [], [], seq(n, _ => 0);
    }

    /** One statement of the worker loop. */
    method Work(w: nat)
      requires Enabled(View(), Action.Work(w))
      modifies this
      ensures View() == Do(old(View()), Action.Work(w))
    {
      match workers[w]
      case LoopTest =>
        if stop {
          workers := workers[w := Exited];
        } else {
          workers := workers[w := LockTasks];
        }
      case LockTasks =>
        cvMtx, workers := Some(Pool(w)), workers[w := WaitTest(false)];
      case Woken =>
        cvMtx, workers := Some(Pool(w)), workers[w := WaitTest(true)];
      case WaitTest(woken) =>
        if stop || tasks != [] {
          workers := workers[w := TakeTask(woken)];
        } else {
          workers := workers[w := FallAsleep];
        }
      case FallAsleep =>
        cvMtx, workers := None, workers[w := Sleeping];
      case TakeTask(_) =>
        if tasks == [] {
          cvMtx, workers := None, workers[w := Exited];
          return;
        }
        workers := workers[w := UnlockTasks(tasks[0])];
        taken := taken + [(w, tasks[0])];
        tasks := tasks[1..];
        late := if stop then late[w := late[w] + 1] else late;
      case UnlockTasks(x) =>
        cvMtx, workers := None, workers[w := DecCount(x)];
      case DecCount(x) =>
        threadNum, workers := threadNum - 1, workers[w := RunTask(x)];
      case RunTask(x) =>
        ran, workers := ran[w := ran[w] + [x]], workers[w := IncCount];
      case IncCount =>
        threadNum, workers := threadNum + 1, workers[w := LoopTest];
    }

    /** A call of `commit` begins. */
    method Begin(c: nat, task: int)
      requires Enabled(View(), Action.Commit(c, task))
      modifies this
      ensures View() == Do(old(View()), Action.Commit(c, task))
    {
      committers := committers[c := LoadStop(task)];
    }

    /** The wait of a worker ends without a notification. */
    method WakeUp(w: nat)
      requires Enabled(View(), Action.Spurious(w))
      modifies this
      ensures View() == Do(old(View()), Action.Spurious(w))
    {
      workers := workers[w := Woken];
    }

    /** One statement of `commit`; `sleeper` is the worker `notify_one` wakes. */
    method Commit(c: nat, sleeper: Option<nat>)
      requires if sleeper.Some? then Enabled(View(), Notify(c, sleeper.value)) else Enabled(View(), Action.Client(c))
      modifies this
      ensures View() == Do(old(View()), if sleeper.Some? then Notify(c, sleeper.value) else Action.Client(c))
    {
      match committers[c]
      case LoadStop(x) =>
        if stop {
          committers := committers[c := Ready];
          refused := refused + [(c, x)];
        } else {
          committers := committers[c := LockPush(x)];
        }
      case LockPush(x) =>
        cvMtx, committers := Some(Owner.Client(c)), committers[c := Emplace(x)];
      case Emplace(x) =>
        tasks, committers := tasks + [x], committers[c := UnlockPush];
        accepted := accepted + [(c, x)];
      case UnlockPush =>
        cvMtx, committers := None, committers[c := NotifyOne];
      case NotifyOne =>
        committers := committers[c := Ready];
        if sleeper.Some? {
          workers := workers[sleeper.value := Woken];
        }
    }

    /** `stop`: first the flag, without the mutex, then the notification. */
    method Stop()
      requires Enabled(View(), Action.Stop)
      modifies this
      ensures View() == Do(old(View()), Action.Stop)
    {
      if stopper.NotStopping? {
        stop, stopper := true, NotifyAll;
      } else {
        workers, stopper := WakeAll(workers), Joining;
      }
    }
  }
}
