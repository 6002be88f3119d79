/** `threadsafe_queue`: a queue under one mutex with a condition variable. Any number of
    threads push, pop with a blocking wait, and try to pop, statement by statement; waits
    may end spuriously and items may be taken by somebody else before a woken consumer
    gets the mutex. */
module ThreadsafeQueue {
  import opened Logs
  import opened Tally
  import opened Runs

  datatype Operation = Push(item: int) | WaitAndPop | TryPop

  /** Where a thread stands. `woken` marks a consumer that has been through the wait. */
  datatype Point =
    | Idle
    | PushLock(item: int) | PushStore(item: int) | PushNotify | PushUnlock
    | PopLock | PopTest(woken: bool) | Sleeping | Woken
    | PopFront(woken: bool) | PopRemove(woken: bool, item: int) | PopUnlock(item: int)
    | TryLock | TryTest | TryFront | TryRemove(item: int) | TryUnlock(result: Option<int>)

  /** What a call returns: nothing in particular, an item, or the news that there is none. */
  datatype Answer = Stored | Got(item: int) | Nothing

  /** The queue and its threads; the items pushed and popped so far in order, with the threads
      that did it; and what the calls of each thread returned. */
  datatype State = State(
    queue: seq<int>, holder: Option<nat>, points: seq<Point>,
    pushed: Log<int>, popped: Log<int>, returned: seq<seq<Answer>>)

  datatype Action = Call(t: nat, op: Operation) | Go(t: nat) | Notify(t: nat, sleeper: nat) | Spurious(t: nat)

  ghost predicate Init(s: State) {
    && s.queue == [] && s.holder == None
    && s.points == seq(|s.points|, _ => Idle)
    && s.pushed == [] && s.popped == []
    && s.returned == seq(|s.points|, _ => [])
  }

  predicate Holds(p: Point) {
    p.PushStore? || p.PushNotify? || p.PushUnlock? ||
    p.PopTest? || p.PopFront? || p.PopRemove? || p.PopUnlock? ||
    p.TryTest? || p.TryFront? || p.TryRemove? || p.TryUnlock?
  }

  ghost predicate SomeoneSleeps(s: State) {
    exists u: nat :: u < |s.points| && s.points[u].Sleeping?
  }

  /** What a thread relies on between two statements under the mutex. */
  predicate Knows(s: State, p: Point) {
    match p
    case PopFront(_) | TryFront => s.queue != []
    case PopRemove(_, x) => s.queue != [] && s.queue[0] == x
    case TryRemove(x) => s.queue != [] && s.queue[0] == x
    case _ => true
  }

  ghost predicate Enabled(s: State, a: Action) {
    && |s.returned| == |s.points|
    && a.t < |s.points|
    && Knows(s, s.points[a.t])  // holds in every reachable state; makes `front` and `pop` well defined
    && match a
       case Call(t, op) => s.points[t].Idle?
       case Go(t) =>
         (match s.points[t]
          case Idle | Sleeping => false
          case PushLock(_) | PopLock | TryLock | Woken => s.holder == None
          case PushNotify => !SomeoneSleeps(s)
          case _ => true)
       case Notify(t, u) => s.points[t].PushNotify? && u < |s.points| && s.points[u].Sleeping?
       case Spurious(t) => s.points[t].Sleeping?
  }

  function Move(s: State, t: nat, p: Point): State
    requires t < |s.points|
  {
    s.(points := s.points[t := p])
  }

  function Lock(s: State, t: nat, p: Point): State
    requires t < |s.points|
  {
    Move(s, t, p).(holder := Some(t))
  }

  /** Unlocks the mutex and returns from the call. */
  function Unlock(s: State, t: nat, answer: Answer): State
    requires t < |s.points| && t < |s.returned|
  {
    Move(s, t, Idle).(holder := None, returned := s.returned[t := s.returned[t] + [answer]])
  }

  function Remove(s: State, t: nat, p: Point): State
    requires t < |s.points| && s.queue != []
  {
    Move(s, t, p).(queue := s.queue[1..], popped := s.popped + [(t, s.queue[0])])
  }

  /** One statement executed by thread t. */
  function Statement(s: State, t: nat): State
    requires t < |s.points| && t < |s.returned| && Knows(s, s.points[t])
  {
    match s.points[t]
    case Idle | Sleeping => s
    // push
    case PushLock(x) => Lock(s, t, PushStore(x))
    case PushStore(x) => Move(s, t, PushNotify).(queue := s.queue + [x], pushed := s.pushed + [(t, x)])
    case PushNotify => Move(s, t, PushUnlock)
    case PushUnlock => Unlock(s, t, Stored)
    // wait_and_pop
    case PopLock => Lock(s, t, PopTest(false))
    case Woken => Lock(s, t, PopTest(true))
    case PopTest(woken) =>
      if s.queue == [] then Move(s, t, Sleeping).(holder := None) else Move(s, t, PopFront(woken))
    case PopFront(woken) => Move(s, t, PopRemove(woken, s.queue[0]))
    case PopRemove(_, x) => Remove(s, t, PopUnlock(x))
    case PopUnlock(x) => Unlock(s, t, Got(x))
    // try_pop
    case TryLock => Lock(s, t, TryTest)
    case TryTest => Move(s, t, if s.queue == [] then TryUnlock(None) else TryFront)
    case TryFront => Move(s, t, TryRemove(s.queue[0]))
    case TryRemove(x) => Remove(s, t, TryUnlock(Some(x)))
    case TryUnlock(result) => Unlock(s, t, if result.Some? then Got(result.value) else Nothing)
  }

  ghost function Do(s: State, a: Action): State
    requires Enabled(s, a)
  {
    match a
    case Call(t, op) =>
      Move(s, t, match op case Push(x) => PushLock(x) case WaitAndPop => PopLock case TryPop => TryLock)
    case Go(t) => Statement(s, t)
    case Notify(t, u) => Move(Move(s, t, PushUnlock), u, Woken)
    case Spurious(t) => Move(s, t, Woken)
  }

  ghost predicate Next(s: State, t: State) {
    exists a :: Enabled(s, a) && t == Do(s, a)
  }

  /** A wait may end at any time without a notification; the mutex has still to be locked. */
  lemma AnyWaitMayEnd(s: State, t: nat)
    requires |s.returned| == |s.points| && t < |s.points| && s.points[t].Sleeping?
    ensures Next(s, s.(points := s.points[t := Woken]))
  {
    assert Enabled(s, Spurious(t));
  }

  // ----- first in, first out

  /** The items among some answers. */
  function Given(answers: seq<Answer>): seq<int> {
    if answers == [] then [] else
    Given(answers[..|answers| - 1]) + match answers[|answers| - 1] case Got(x) => [x] case _ => []
  }

  lemma GivenOneMore(answers: seq<Answer>, a: Answer)
    ensures Given(answers + [a]) == Given(answers) + if a.Got? then [a.item] else []
  {
    assert (answers + [a])[..|answers|] == answers;
  }

  /** An item removed from the queue but not yet given to its caller. */
  function InHand(p: Point): seq<int> {
    match p
    case PopUnlock(x) => [x]
    case TryUnlock(result) => if result.Some? then [result.value] else []
    case _ => []
  }

  ghost predicate ThreadInv(s: State, t: nat)
    requires t < |s.points|
  {
    && (Holds(s.points[t]) <==> s.holder == Some(t))
    && Knows(s, s.points[t])
    && (s.points[t] == TryUnlock(None) ==> s.queue == [])
  }

  ghost predicate Inv(s: State) {
    && |s.returned| == |s.points|
    && (forall t: nat :: t < |s.points| ==> ThreadInv(s, t))
    && (s.holder.Some? ==> s.holder.value < |s.points|)
  }

  /** Popped items followed by the queue are the pushed items, and every thread was given
      what it popped, in that order. */
  ghost predicate Fifo(s: State) {
    && Entries(s.popped) + s.queue == Entries(s.pushed)
    && forall t: nat :: t < |s.points| && t < |s.returned| ==>
         Of(s.popped, t) == Given(s.returned[t]) + InHand(s.points[t])
  }

  lemma StepInv(s: State, a: Action)
    requires Inv(s) && Enabled(s, a)
    ensures Inv(Do(s, a))
  {
    var n := Do(s, a);
    assert ThreadInv(s, a.t);
    if a.Notify? {
      assert ThreadInv(s, a.sleeper);
    }
    forall u: nat | u < |n.points| ensures ThreadInv(n, u) {
      assert ThreadInv(s, u);
    }
  }

  /** What moves between the queue, the logs and the hands when thread t takes `out` and
      pushes `inn`. */
  ghost predicate Moves(s: State, n: State, t: nat, inn: seq<int>, out: seq<int>) {
    && |inn| <= 1 && |out| <= 1 && n.pushed == s.pushed + Tagged(t, inn) && s.queue + inn == out + n.queue
    && n.popped == s.popped + Tagged(t, out)
    && t < |n.points| == |s.points| == |n.returned| == |s.returned|
    && Hands(s, n, t, out)
  }

  /** What that does to the hands of the threads. */
  ghost predicate Hands(s: State, n: State, t: nat, out: seq<int>)
    requires t < |n.points| == |s.points| == |n.returned| == |s.returned|
  {
    && Given(n.returned[t]) + InHand(n.points[t]) == Given(s.returned[t]) + InHand(s.points[t]) + out
    && forall u: nat :: u < |s.points| && u != t ==>
         n.returned[u] == s.returned[u] && InHand(n.points[u]) == InHand(s.points[u])
  }

  /** What a step does to the queue, the logs and the hands: at most one item enters at the
      back or leaves at the front, to the thread that moves. */
  lemma StepOnItems(s: State, a: Action) returns (inn: seq<int>, out: seq<int>)
    requires Inv(s) && Enabled(s, a)
    ensures Moves(s, Do(s, a), a.t, inn, out) && |inn| + |out| <= 1
  {
    if a.Go? {
      inn, out := StatementOnItems(s, a.t);
    } else {
      inn, out := [], [];
      hide Inv;
    }
  }

  function Leaving(p: Point): seq<int> {
    match p case PopRemove(_, x) => [x] case TryRemove(x) => [x] case _ => []
  }

  lemma StatementOnHands(s: State, t: nat)
    requires t < |s.points| == |s.returned| && Knows(s, s.points[t])
    ensures var n := Statement(s, t); t < |n.points| == |s.points| == |n.returned|
    ensures Hands(s, Statement(s, t), t, Leaving(s.points[t]))
  {
    var p, n := s.points[t], Statement(s, t);
    assert n.points == s.points[t := n.points[t]];
    if !p.Idle? && n.points[t].Idle? {
      GivenOneMore(s.returned[t], n.returned[t][|s.returned[t]|]);
    }
    hide Given;
  }

  function Entering(p: Point): seq<int> {
    match p case PushStore(x) => [x] case _ => []
  }

  lemma StatementOnQueue(s: State, t: nat)
    requires t < |s.points| == |s.returned| && Knows(s, s.points[t])
    ensures var (n, inn, out) := (Statement(s, t), Entering(s.points[t]), Leaving(s.points[t]));
      && n.pushed == s.pushed + Tagged(t, inn) && n.popped == s.popped + Tagged(t, out)
      && s.queue + inn == out + n.queue
  {
  }

  lemma StatementOnItems(s: State, t: nat) returns (inn: seq<int>, out: seq<int>)
    requires t < |s.points| == |s.returned| && Knows(s, s.points[t])
    ensures Moves(s, Statement(s, t), t, inn, out) && |inn| + |out| <= 1
  {
    StatementOnHands(s, t);
    StatementOnQueue(s, t);
    inn, out := Entering(s.points[t]), Leaving(s.points[t]);
    hide Hands, Statement, Tagged;
  }

  lemma MovesKeepOrder(s: State, n: State, t: nat, inn: seq<int>, out: seq<int>)
    requires Fifo(s) && Moves(s, n, t, inn, out)
    ensures Fifo(n)
  {
    QueueMoves(s.popped, t, s.queue, n.queue, inn, out);
    OfTagged(s.pushed, t, inn, t);
    hide Entries, Of, InHand, Tagged, Given;
    forall u: nat | u < |n.points| ensures Of(n.popped, u) == Given(n.returned[u]) + InHand(n.points[u]) {
      assert Of(s.popped, u) == Given(s.returned[u]) + InHand(s.points[u]);
      OfTagged(s.popped, t, out, u);
    }
  }

  lemma StepFifo(s: State, a: Action)
    requires Inv(s) && Fifo(s) && Enabled(s, a)
    ensures Fifo(Do(s, a))
  {
    hide Do, Fifo, Moves, Inv;
    var inn, out := StepOnItems(s, a);
    MovesKeepOrder(s, Do(s, a), a.t, inn, out);
  }

  // ----- no lost wakeup

  /** A consumer that has been woken and has not yet looked at, or taken, an item. */
  function Awake(p: Point): int {
    if p.Woken? || (p.PopTest? && p.woken) || (p.PopFront? && p.woken) || (p.PopRemove? && p.woken) then 1 else 0
  }

  /** A producer that has stored an item it has not yet notified. */
  function Notifying(p: Point): int { if p.PushNotify? then 1 else 0 }

  /** If anyone sleeps, every queued item has a woken consumer or a notification coming. */
  ghost predicate NoneForgotten(s: State) {
    SomeoneSleeps(s) ==> |s.queue| <= Sum(Awake, s.points) + Sum(Notifying, s.points)
  }

  lemma MoveSums(ps: seq<Point>, t: nat, p: Point)
    requires t < |ps|
    ensures Sum(Awake, ps[t := p]) == Sum(Awake, ps) - Awake(ps[t]) + Awake(p)
    ensures Sum(Notifying, ps[t := p]) == Sum(Notifying, ps) - Notifying(ps[t]) + Notifying(p)
  {
    SumUpdate(Awake, ps, t, p);
    SumUpdate(Notifying, ps, t, p);
  }

  lemma StepForgetsNone(s: State, a: Action)
    requires Inv(s) && NoneForgotten(s) && Enabled(s, a)
    ensures NoneForgotten(Do(s, a))
  {
    hide Sum;
    var n := Do(s, a);
    assert ThreadInv(s, a.t);
    MoveSums(s.points, a.t, n.points[a.t]);
    SumNonneg(Awake, n.points);
    SumNonneg(Notifying, n.points);
    if a.Notify? {
      MoveSums(s.points[a.t := PushUnlock], a.sleeper, Woken);
    } else {
      assert n.points == s.points[a.t := n.points[a.t]];
    }
    if u: nat :| u < |n.points| && n.points[u].Sleeping? {
      if u != a.t || !n.points[a.t].Sleeping? {
        assert s.points[u].Sleeping?;
      }
    }
  }

  lemma InitInv(s: State)
    requires Init(s)
    ensures Inv(s) && Fifo(s) && NoneForgotten(s)
  {
    SumConstant(Awake, s.points, 0);
    SumConstant(Notifying, s.points, 0);
  }

  ghost predicate Good(s: State) { Inv(s) && Fifo(s) && NoneForgotten(s) }

  lemma EveryRunIsGood(run: seq<State>)
    requires IsRun(Init, Next, run)
    ensures forall k :: 0 <= k < |run| ==> Good(run[k])
  {
    forall s | Init(s) ensures Good(s) { InitInv(s); }
    forall s, t | Good(s) && Next(s, t) ensures Good(t) {
      var a :| Enabled(s, a) && t == Do(s, a);
      StepInv(s, a);
      StepFifo(s, a);
      StepForgetsNone(s, a);
    }
    Invariance(Init, Next, Good, run);
  }

  /** In any interleaving, popped items followed by the queue are exactly the pushed items,
      in order, and every thread was given what it popped. */
  lemma FirstInFirstOut(run: seq<State>, k: nat)
    requires IsRun(Init, Next, run) && k < |run|
    ensures Entries(run[k].popped) + run[k].queue == Entries(run[k].pushed)
    ensures forall t: nat :: t < |run[k].points| && t < |run[k].returned| ==>
      Of(run[k].popped, t) == Given(run[k].returned[t]) + InHand(run[k].points[t])
  {
    EveryRunIsGood(run);
    assert Good(run[k]);
  }

  /** `try_pop` comes back without an item only if the queue is empty at that moment. */
  lemma TryPopFailsOnlyOnEmpty(run: seq<State>, k: nat, t: nat)
    requires IsRun(Init, Next, run) && k < |run| && t < |run[k].points| && run[k].points[t] == TryUnlock(None)
    ensures run[k].queue == [] && run[k].holder == Some(t)
  {
    EveryRunIsGood(run);
    assert Good(run[k]);
    assert ThreadInv(run[k], t);
  }

  /** No wakeup is lost, with any number of consumers: whenever the mutex is free and some
      consumer sleeps, there are at least as many woken consumers as queued items. */
  lemma NoLostWakeup(run: seq<State>, k: nat)
    requires IsRun(Init, Next, run) && k < |run| && run[k].holder == None
    ensures SomeoneSleeps(run[k]) ==> |run[k].queue| <= Sum(Awake, run[k].points)
  {
    EveryRunIsGood(run);
    var s := run[k];
    assert Good(s);
    forall t | 0 <= t < |s.points| ensures Notifying(s.points[t]) == 0 {
      assert ThreadInv(s, t);
    }
    SumConstant(Notifying, s.points, 0);
  }

  // ----- what was called, and what it returned

  ghost predicate Step(s: State, a: Action, n: State) {
    Enabled(s, a) && n == Do(s, a)
  }

  function Began(a: Action): seq<Operation> { if a.Call? then [a.op] else [] }

  /** The calls among some actions. */
  function Calls(acts: seq<Action>): Log<Operation> {
    if acts == [] then [] else
    var a := acts[|acts| - 1];
    Calls(acts[..|acts| - 1]) + Tagged(a.t, Began(a))
  }

  lemma CallsOneMore(done: seq<Action>, a: Action)
    ensures Calls(done + [a]) == Calls(done) + Tagged(a.t, Began(a))
  {
    assert (done + [a])[..|done + [a]| - 1] == done;
  }

  /** The items some calls push. */
  function Pushes(calls: seq<Operation>): seq<int> {
    if calls == [] then [] else
    Pushes(calls[..|calls| - 1]) + match calls[|calls| - 1] case Push(x) => [x] case _ => []
  }

  lemma PushesOneMore(calls: seq<Operation>, op: Operation)
    ensures Pushes(calls + [op]) == Pushes(calls) + if op.Push? then [op.item] else []
  {
    assert (calls + [op])[..|calls|] == calls;
  }

  /** Only a `try_pop` may come back with nothing; every pop else comes back with an item. */
  predicate Fits(op: Operation, answer: Answer) {
    match op
    case Push(_) => answer == Stored
    case WaitAndPop => answer.Got?
    case TryPop => answer.Got? || answer == Nothing
  }

  /** Whether a thread may stand at a point in the middle of a call. */
  predicate Performs(p: Point, op: Operation) {
    match p
    case Idle => false
    case PushLock(x) => op == Push(x)
    case PushStore(x) => op == Push(x)
    case PushNotify => op.Push?
    case PushUnlock => op.Push?
    case TryLock => op == TryPop
    case TryTest => op == TryPop
    case TryFront => op == TryPop
    case TryRemove(_) => op == TryPop
    case TryUnlock(_) => op == TryPop
    case _ => op == WaitAndPop
  }

  /** An item that has been handed over but is not in the queue yet. */
  function Unpushed(p: Point): seq<int> {
    match p
    case PushLock(x) => [x]
    case PushStore(x) => [x]
    case _ => []
  }

  /** The answers fit the calls one by one, the thread stands in the middle of the call that has
      no answer yet, if any, and it has pushed what its calls handed over, in order. */
  ghost predicate CallsMatch(calls: seq<Operation>, returned: seq<Answer>, p: Point, pushed: seq<int>) {
    && |calls| == |returned| + (if p.Idle? then 0 else 1)
    && (forall i :: 0 <= i < |returned| ==> Fits(calls[i], returned[i]))
    && (!p.Idle? ==> Performs(p, calls[|returned|]))
    && pushed + Unpushed(p) == Pushes(calls)
  }

  ghost predicate ThreadAnswered(s: State, done: seq<Action>, t: nat)
    requires t < |s.points|
  {
    t < |s.returned| && CallsMatch(Of(Calls(done), t), s.returned[t], s.points[t], Of(s.pushed, t))
  }

  ghost predicate Answered(s: State, done: seq<Action>) {
    forall t: nat :: t < |s.points| ==> ThreadAnswered(s, done, t)
  }

  lemma CallBegins(calls: seq<Operation>, returned: seq<Answer>, op: Operation, q: Point, pushed: seq<int>)
    requires CallsMatch(calls, returned, Idle, pushed) && Performs(q, op)
    requires Unpushed(q) == if op.Push? then [op.item] else []
    ensures CallsMatch(calls + [op], returned, q, pushed)
  {
    PushesOneMore(calls, op);
  }

  lemma CallGoesOn(calls: seq<Operation>, returned: seq<Answer>, p: Point, q: Point, pushed: seq<int>, inn: seq<int>)
    requires CallsMatch(calls, returned, p, pushed) && !p.Idle? && !q.Idle?
    requires forall op :: Performs(p, op) ==> Performs(q, op)
    requires inn + Unpushed(q) == Unpushed(p)
    ensures CallsMatch(calls, returned, q, pushed + inn)
  {
    hide Performs, Pushes;
    assert (pushed + inn) + Unpushed(q) == pushed + (inn + Unpushed(q));
  }

  lemma CallEnds(calls: seq<Operation>, returned: seq<Answer>, p: Point, pushed: seq<int>, answer: Answer)
    requires CallsMatch(calls, returned, p, pushed) && !p.Idle? && Unpushed(p) == []
    requires forall op :: Performs(p, op) ==> Fits(op, answer)
    ensures CallsMatch(calls, returned + [answer], Idle, pushed)
  {
    hide Performs, Pushes, Fits;
  }

  /** The statement of a thread goes on with its call, or ends it with an answer. */
  ghost predicate GoesOn(s: State, n: State, t: nat, inn: seq<int>)
    requires t < |s.points| == |s.returned|
  {
    && |inn| <= 1 && n.pushed == s.pushed + Tagged(t, inn)
    && |n.points| == |s.points| == |n.returned|
    && var (p, q, before, after) := (s.points[t], n.points[t], s.returned[t], n.returned[t]);
    && inn + Unpushed(q) == Unpushed(p)
    && if q.Idle? then
         && Unpushed(p) == [] && |after| == |before| + 1 && after == before + [after[|before|]]
         && forall op :: Performs(p, op) ==> Fits(op, after[|before|])
       else after == before && forall op :: Performs(p, op) ==> Performs(q, op)
  }

  lemma StatementGoesOn(s: State, t: nat) returns (inn: seq<int>)
    requires t < |s.points| == |s.returned| && Knows(s, s.points[t])
    requires !s.points[t].Idle? && !s.points[t].Sleeping?
    ensures GoesOn(s, Statement(s, t), t, inn)
  {
    inn := match s.points[t] case PushStore(x) => [x] case _ => [];
  }

  lemma WakingGoesOn()
    ensures forall op :: Performs(Sleeping, op) ==> Performs(Woken, op)
    ensures forall op :: Performs(PushNotify, op) ==> Performs(PushUnlock, op)
    ensures Unpushed(Sleeping) == Unpushed(Woken) == Unpushed(PushNotify) == Unpushed(PushUnlock) == []
  {
  }

  lemma EnterPerforms(op: Operation)
    ensures var q := match op case Push(x) => PushLock(x) case WaitAndPop => PopLock case TryPop => TryLock;
      Performs(q, op) && Unpushed(q) == if op.Push? then [op.item] else []
  {
  }

  lemma StepGoesOn(s: State, a: Action) returns (inn: seq<int>)
    requires Inv(s) && Enabled(s, a) && !a.Call?
    ensures GoesOn(s, Do(s, a), a.t, inn)
  {
    assert ThreadInv(s, a.t);
    if a.Go? {
      inn := StatementGoesOn(s, a.t);
    } else {
      WakingGoesOn();
      inn := [];
      hide Inv, Performs, Unpushed;
    }
  }

  lemma GoesOnMatches(s: State, n: State, t: nat, inn: seq<int>, calls: seq<Operation>)
    requires t < |s.points| == |s.returned| && !s.points[t].Idle? && GoesOn(s, n, t, inn)
    requires CallsMatch(calls, s.returned[t], s.points[t], Of(s.pushed, t))
    ensures CallsMatch(calls, n.returned[t], n.points[t], Of(n.pushed, t))
  {
    var p, q, returned, pushed := s.points[t], n.points[t], s.returned[t], Of(s.pushed, t);
    OfTagged(s.pushed, t, inn, t);
    NothingUnpushed();
    hide Of, Tagged, CallsMatch, Performs, Unpushed, Fits;
    if q.Idle? {
      assert inn == [] && pushed + inn == pushed;
      CallEnds(calls, returned, p, pushed, n.returned[t][|returned|]);
    } else {
      CallGoesOn(calls, returned, p, q, pushed, inn);
    }
  }

  lemma NothingUnpushed()
    ensures Unpushed(Idle) == []
  {
  }

  lemma CallAnswered(s: State, n: State, calls: seq<Operation>, t: nat, op: Operation)
    requires t < |s.points| == |s.returned| && t < |n.points| == |n.returned| && s.points[t].Idle?
    requires n.points[t] == (match op case Push(x) => PushLock(x) case WaitAndPop => PopLock case TryPop => TryLock)
    requires n.returned[t] == s.returned[t] && n.pushed == s.pushed
    requires CallsMatch(calls, s.returned[t], Idle, Of(s.pushed, t))
    ensures CallsMatch(calls + [op], n.returned[t], n.points[t], Of(n.pushed, t))
  {
    EnterPerforms(op);
    hide Of, CallsMatch, Performs, Unpushed;
    CallBegins(calls, s.returned[t], op, n.points[t], Of(s.pushed, t));
  }

  lemma SelfAnswered(s: State, done: seq<Action>, a: Action)
    requires Inv(s) && Enabled(s, a) && ThreadAnswered(s, done, a.t) && a.t < |Do(s, a).points|
    ensures ThreadAnswered(Do(s, a), done + [a], a.t)
  {
    var calls := Of(Calls(done), a.t);
    CallsOneMore(done, a);
    OfTagged(Calls(done), a.t, Began(a), a.t);
    hide Inv, Calls, Of, Tagged, CallsMatch, Statement;
    if a.Call? {
      CallAnswered(s, Do(s, a), calls, a.t, a.op);
    } else {
      assert calls + [] == calls && !s.points[a.t].Idle?;
      var inn := StepGoesOn(s, a);
      hide Do, GoesOn;
      GoesOnMatches(s, Do(s, a), a.t, inn, calls);
    }
  }

  lemma OtherFrame(s: State, a: Action, u: nat)
    requires Inv(s) && Enabled(s, a) && u < |s.points| && u != a.t
    ensures var n := Do(s, a);
      && u < |n.points| && u < |n.returned| && u < |s.returned|
      && n.returned[u] == s.returned[u] && Of(n.pushed, u) == Of(s.pushed, u)
      && (n.points[u] == s.points[u] || (s.points[u] == Sleeping && n.points[u] == Woken))
  {
    var inn, out := StepOnItems(s, a);
    OfTagged(s.pushed, a.t, inn, u);
    OthersOnlyWake(s, a, u);
    hide Do, Enabled, Inv, Of, Tagged, Given, InHand;
  }

  lemma WakingMatches(calls: seq<Operation>, returned: seq<Answer>, pushed: seq<int>)
    requires CallsMatch(calls, returned, Sleeping, pushed)
    ensures CallsMatch(calls, returned, Woken, pushed)
  {
    WakingGoesOn();
  }

  lemma OtherAnswered(s: State, done: seq<Action>, a: Action, u: nat)
    requires Inv(s) && Enabled(s, a) && u < |s.points| && u != a.t && ThreadAnswered(s, done, u)
    ensures u < |Do(s, a).points| && ThreadAnswered(Do(s, a), done + [a], u)
  {
    OtherFrame(s, a, u);
    CallsOneMore(done, a);
    OfTagged(Calls(done), a.t, Began(a), u);
    hide Inv, Do, Enabled, Calls, Of, Tagged, CallsMatch;
    if s.points[u] == Sleeping {
      WakingMatches(Of(Calls(done), u), s.returned[u], Of(s.pushed, u));
    }
    assert Of(Calls(done + [a]), u) == Of(Calls(done), u);
  }

  lemma OthersOnlyWake(s: State, a: Action, u: nat)
    requires Enabled(s, a) && u < |s.points| && u != a.t
    ensures var n := Do(s, a);
      u < |n.points| && (n.points[u] == s.points[u] || (s.points[u] == Sleeping && n.points[u] == Woken))
  {
  }

  lemma StepAnswered(s: State, done: seq<Action>, a: Action)
    requires Inv(s) && Enabled(s, a) && Answered(s, done)
    ensures Answered(Do(s, a), done + [a])
  {
    var inn, out := StepOnItems(s, a);
    SelfAnswered(s, done, a);
    hide Do, Enabled, ThreadAnswered, Inv;
    forall u: nat | u < |Do(s, a).points| ensures ThreadAnswered(Do(s, a), done + [a], u) {
      if u != a.t { OtherAnswered(s, done, a, u); }
    }
  }

  /** In every trace the answers a thread got fit its calls, one by one, and the items it has
      pushed are those its calls handed over, in order, up to the call it is in. */
  lemma EveryCallIsAnswered(run: seq<State>, acts: seq<Action>, t: nat)
    requires IsTrace(Init, Step, run, acts) && t < |Last(run).points|
    ensures var s := Last(run);
      t < |s.returned| && CallsMatch(Of(Calls(acts), t), s.returned[t], s.points[t], Of(s.pushed, t))
  {
    var inv := (s: State, done: seq<Action>) => Inv(s) && Answered(s, done);
    forall s | Init(s) ensures inv(s, []) {
      InitInv(s);
    }
    forall s, done, a, t | inv(s, done) && Step(s, a, t) ensures inv(t, done + [a]) {
      StepInv(s, a);
      StepAnswered(s, done, a);
    }
    hide Init, Step, Inv, ThreadAnswered;
    TraceInvariance(Init, Step, inv, run, acts);
    assert ThreadAnswered(Last(run), acts, t);
    AnsweredMeans(Last(run), acts, t);
  }

  lemma AnsweredMeans(s: State, done: seq<Action>, t: nat)
    requires t < |s.points| && ThreadAnswered(s, done, t)
    ensures t < |s.returned| && CallsMatch(Of(Calls(done), t), s.returned[t], s.points[t], Of(s.pushed, t))
  {
  }

  // ----- a queue at rest

  /** Nothing can happen any more but a new call and a spurious wakeup. */
  ghost predicate Resting(s: State) {
    forall a :: Enabled(s, a) ==> a.Call? || a.Spurious?
  }

  lemma RestingPoints(s: State)
    requires Inv(s) && Resting(s)
    ensures s.holder == None
    ensures forall t: nat :: t < |s.points| ==> s.points[t].Idle? || s.points[t].Sleeping?
  {
    if s.holder.Some? {
      var h := s.holder.value;
      assert ThreadInv(s, h);
      assert !Enabled(s, Go(h));
      var u: nat :| u < |s.points| && s.points[u].Sleeping?;
      assert Enabled(s, Notify(h, u));
    }
    forall t: nat | t < |s.points| ensures s.points[t].Idle? || s.points[t].Sleeping? {
      assert ThreadInv(s, t) && !Enabled(s, Go(t));
    }
  }

  /** A run that has come to rest has the mutex free, every thread out of its call or asleep,
      everybody given what they popped, and nobody asleep over a queued item. */
  lemma NobodySleepsOverAnItem(run: seq<State>)
    requires IsRun(Init, Next, run) && Resting(Last(run))
    ensures var s := Last(run);
      && s.holder == None
      && (forall t: nat :: t < |s.points| ==>
            (s.points[t].Idle? || s.points[t].Sleeping?) && t < |s.returned| && Given(s.returned[t]) == Of(s.popped, t))
      && (SomeoneSleeps(s) ==> s.queue == [])
  {
    EveryRunIsGood(run);
    var s := Last(run);
    assert Good(s);
    RestingPoints(s);
    SumConstant(Awake, s.points, 0);
    SumConstant(Notifying, s.points, 0);
  }

  /** Statements to the end of a call or to sleep; a notification pays for whom it wakes. */
  function Rank(p: Point): int {
    match p
    case Idle => 0 case Sleeping => 0
    case PushLock(_) => 9 case PushStore(_) => 8 case PushNotify => 7 case PushUnlock => 1
    case PopLock => 5 case Woken => 5 case PopTest(_) => 4
    case PopFront(_) => 3 case PopRemove(_, _) => 2 case PopUnlock(_) => 1
    case TryLock => 5 case TryTest => 4 case TryFront => 3 case TryRemove(_) => 2 case TryUnlock(_) => 1
  }

  lemma StatementCalms(s: State, t: nat)
    requires t < |s.points| == |s.returned| && Knows(s, s.points[t])
    requires !s.points[t].Idle? && !s.points[t].Sleeping?
    ensures var q := Statement(s, t).points[t];
      Statement(s, t).points == s.points[t := q] && Rank(q) < Rank(s.points[t])
  {
  }

  /** The queue comes to rest if it is left alone: every step but a new call and a spurious
      wakeup lowers what is left to do, and those raise it by a fixed amount. */
  lemma QueueComesToRest(s: State, a: Action)
    requires Enabled(s, a)
    ensures 0 <= Sum(Rank, Do(s, a).points)
    ensures Sum(Rank, Do(s, a).points)
      < Sum(Rank, s.points) + (if a.Call? then 10 else if a.Spurious? then 6 else 0)
  {
    var n := Do(s, a);
    SumNonneg(Rank, n.points);
    hide Sum;
    if a.Notify? {
      SumUpdate(Rank, s.points, a.t, PushUnlock);
      SumUpdate(Rank, s.points[a.t := PushUnlock], a.sleeper, Woken);
    } else if a.Go? {
      StatementCalms(s, a.t);
      hide Statement, Rank;
      SumUpdate(Rank, s.points, a.t, n.points[a.t]);
    } else {
      assert n.points == s.points[a.t := n.points[a.t]];
      SumUpdate(Rank, s.points, a.t, n.points[a.t]);
    }
  }

  // ----- the program

  class Queue {
    var dataQueue: seq<int>
    var mut: Option<nat>
    var points: seq<Point>
    var returned: seq<seq<Answer>>
    ghost var pushed: Log<int>
    ghost var popped: Log<int>

    ghost function View(): State
      reads this
    {
      State(dataQueue, mut, points, pushed, popped, returned)
    }

    constructor (threads: nat)
      ensures Init(View()) && |points| == threads
    {
      dataQueue, mut, points, returned := [], None, seq(threads, _ => Idle), seq(threads, _ => []);
      pushed, popped := [], [];
    }

    method Begin(t: nat, op: Operation)
      requires Enabled(View(), Call(t, op))
      modifies this`points
      ensures View() == Do(old(View()), Call(t, op))
    {
      match op
      case Push(x) => points := points[t := PushLock(x)];
      case WaitAndPop => points := points[t := PopLock];
      case TryPop => points := points[t := TryLock];
    }

    /** A wait ends without a notification. */
    method WakeUp(t: nat)
      requires Enabled(View(), Spurious(t))
      modifies this`points
      ensures View() == Do(old(View()), Spurious(t))
    {
      points := points[t := Woken];
    }

    /** One statement of `push`; `sleeper` is the thread `notify_one` wakes. */
    method Push(t: nat, sleeper: Option<nat>)
      requires if sleeper.Some? then Enabled(View(), Notify(t, sleeper.value)) else Enabled(View(), Go(t))
      requires points[t].PushLock? || points[t].PushStore? || points[t].PushNotify? || points[t].PushUnlock?
      modifies this
      ensures View() == Do(old(View()), if sleeper.Some? then Notify(t, sleeper.value) else Go(t))
    {
      match points[t]
      case PushLock(x) =>
        mut, points := Some(t), points[t := PushStore(x)];
      case PushStore(x) =>
        dataQueue, points := dataQueue + [x], points[t := PushNotify];
        pushed := pushed + [(t, x)];
      case PushNotify =>
        points := points[t := PushUnlock];
        if sleeper.Some? {
          points := points[sleeper.value := Woken];
        }
      case PushUnlock =>
        mut, points, returned := None, points[t := Idle], returned[t := returned[t] + [Stored]];
    }

    /** One statement of `wait_and_pop`. */
    method WaitAndPop(t: nat)
      requires Enabled(View(), Go(t))
      requires points[t].PopLock? || points[t].Woken? || points[t].PopTest? ||
               points[t].PopFront? || points[t].PopRemove? || points[t].PopUnlock?
      modifies this
      ensures View() == Do(old(View()), Go(t))
    {
      match points[t]
      case PopLock =>
        mut, points := Some(t), points[t := PopTest(false)];
      case Woken =>
        mut, points := Some(t), points[t := PopTest(true)];
      case PopTest(woken) =>
        if dataQueue == [] {
          mut, points := None, points[t := Sleeping];
        } else {
          points := points[t := PopFront(woken)];
        }
      case PopFront(woken) =>
        points := points[t := PopRemove(woken, dataQueue[0])];
      case PopRemove(_, x) =>
        popped := popped + [(t, dataQueue[0])];
        dataQueue, points := dataQueue[1..], points[t := PopUnlock(x)];
      case PopUnlock(x) =>
        mut, points, returned := None, points[t := Idle], returned[t := returned[t] + [Got(x)]];
    }

    /** One statement of `try_pop`. */
    method TryPop(t: nat)
      requires Enabled(View(), Go(t))
      requires points[t].TryLock? || points[t].TryTest? || points[t].TryFront? ||
               points[t].TryRemove? || points[t].TryUnlock?
      modifies this
      ensures View() == Do(old(View()), Go(t))
    {
      match points[t]
      case TryLock =>
        mut, points := Some(t), points[t := TryTest];
      case TryTest =>
        if dataQueue == [] {
          points := points[t := TryUnlock(None)];
        } else {
          points := points[t := TryFront];
        }
      case TryFront =>
        points := points[t := TryRemove(dataQueue[0])];
      case TryRemove(x) =>
        popped := popped + [(t, dataQueue[0])];
        dataQueue, points := dataQueue[1..], points[t := TryUnlock(Some(x))];
      case TryUnlock(result) =>
        var answer := if result.Some? then Got(result.value) else Nothing;
        mut, points, returned := None, points[t := Idle], returned[t := returned[t] + [answer]];
    }
  }
}
