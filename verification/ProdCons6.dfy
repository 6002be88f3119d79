/** mutex/prodcons6.cpp: producers claim indices of one big array under `put.mutex`, then
    announce them under `nready.mutex`, signalling only when `nready` was zero; a single
    consumer waits on the condition and reads `buff[i]` with no lock held at all. */
module ProdCons6 {
  import opened Logs
  import opened Tally
  import opened Runs

  const MAXNITEMS: nat := 1000000

  datatype Producer =
    | LockPut | TestPut | UnlockExit | PutDone
    | Store | IncPut | IncVal | UnlockPut
    | LockReady | TestReady | Signal | IncReady | UnlockReady | CountPut

  datatype Consumer =
    | ForTest | LockGet | TestGet | CondWait | Sleeping | Woken
    | DecReady | UnlockGet | Check | IncIndex | GetDone

  datatype Party = Prod(i: nat) | Cons

  /** `storedBy` are the producers of the items stored, `seen` the values the consumer read,
      `errors` how often its check printed, and `spurious` how often its wait ended without a
      signal. */
  datatype State = State(
    nitems: int, buff: seq<int>, nput: int, nval: int, putMutex: Option<Party>,
    nready: int, readyMutex: Option<Party>,
    producers: seq<Producer>, count: seq<int>, storedBy: seq<nat>,
    consumer: Consumer, i: int, seen: seq<int>, errors: int, spurious: nat)

  datatype Action = Produce(i: nat) | SignalConsumer(i: nat) | Consume | Spurious

  ghost predicate Init(s: State) {
    && s.nitems <= MAXNITEMS && |s.buff| == MAXNITEMS
    && s.nput == s.nval == s.nready == s.i == s.errors == 0
    && s.putMutex == None && s.readyMutex == None
    && s.producers == seq(|s.producers|, _ => LockPut)
    && s.count == seq(|s.producers|, _ => 0)
    && s.consumer == ForTest && s.seen == [] && s.spurious == 0 && s.storedBy == []
  }

  /** Sizes and the index bounds the array accesses rely on; every reachable state has them. */
  predicate Shape(s: State) {
    && |s.buff| == MAXNITEMS && |s.count| == |s.producers|
    && 0 <= s.nput && 0 <= s.i && s.nitems <= MAXNITEMS
    && (forall j :: 0 <= j < |s.producers| ==> (s.producers[j].Store? ==> s.nput < MAXNITEMS))
    && (s.consumer.Check? ==> s.i < MAXNITEMS)
  }

  predicate Enabled(s: State, a: Action) {
    && Shape(s)
    && match a
       case Produce(i) =>
         i < |s.producers| &&
         (match s.producers[i]
          case LockPut => s.putMutex == None
          case LockReady => s.readyMutex == None
          case PutDone => false
          case Signal => s.consumer != Sleeping
          case _ => true)
       case SignalConsumer(i) => i < |s.producers| && s.producers[i].Signal? && s.consumer.Sleeping?
       case Consume =>
         (match s.consumer
          case LockGet | Woken => s.readyMutex == None
          case Sleeping | GetDone => false
          case _ => true)
       case Spurious => s.consumer.Sleeping?
  }

  /** One statement of `produce`; a signal that finds nobody waiting is lost. */
  function ProduceStep(s: State, i: nat): State
    requires Shape(s) && i < |s.producers|
  {
    match s.producers[i]
    case LockPut => s.(producers := s.producers[i := TestPut], putMutex := Some(Prod(i)))
    case TestPut => s.(producers := s.producers[i := if s.nput >= s.nitems then UnlockExit else Store])
    case UnlockExit => s.(producers := s.producers[i := PutDone], putMutex := None)
    case PutDone => s
    case Store => s.(producers := s.producers[i := IncPut], buff := s.buff[s.nput := s.nval],
                     storedBy := s.storedBy + [i])
    case IncPut => s.(producers := s.producers[i := IncVal], nput := s.nput + 1)
    case IncVal => s.(producers := s.producers[i := UnlockPut], nval := s.nval + 1)
    case UnlockPut => s.(producers := s.producers[i := LockReady], putMutex := None)
    case LockReady => s.(producers := s.producers[i := TestReady], readyMutex := Some(Prod(i)))
    case TestReady => s.(producers := s.producers[i := if s.nready == 0 then Signal else IncReady])
    case Signal => s.(producers := s.producers[i := IncReady])
    case IncReady => s.(producers := s.producers[i := UnlockReady], nready := s.nready + 1)
    case UnlockReady => s.(producers := s.producers[i := CountPut], readyMutex := None)
    case CountPut => s.(producers := s.producers[i := LockPut], count := s.count[i := s.count[i] + 1])
  }

  /** One statement of `consume`. */
  function ConsumeStep(s: State): State
    requires Shape(s)
  {
    match s.consumer
    case ForTest => s.(consumer := if s.i < s.nitems then LockGet else GetDone)
    case LockGet | Woken => s.(consumer := TestGet, readyMutex := Some(Cons))
    case TestGet => s.(consumer := if s.nready == 0 then CondWait else DecReady)
    case CondWait => s.(consumer := Sleeping, readyMutex := None)
    case DecReady => s.(consumer := UnlockGet, nready := s.nready - 1)
    case UnlockGet => s.(consumer := Check, readyMutex := None)
    case Check => s.(consumer := IncIndex, seen := s.seen + [s.buff[s.i]],
                     errors := s.errors + if s.buff[s.i] != s.i then 1 else 0)
    case IncIndex => s.(consumer := ForTest, i := s.i + 1)
    case Sleeping | GetDone => s
  }

  function Do(s: State, a: Action): State
    requires Enabled(s, a)
  {
    match a
    case Produce(i) => ProduceStep(s, i)
    case SignalConsumer(i) => s.(producers := s.producers[i := IncReady], consumer := Woken)
    case Consume => ConsumeStep(s)
    case Spurious => s.(consumer := Woken, spurious := s.spurious + 1)
  }

  ghost predicate Next(s: State, t: State) {
    exists a :: Enabled(s, a) && t == Do(s, a)
  }

  /** A wait may end at any time without a signal; the mutex has still to be locked again. */
  lemma AnyWaitMayEnd(s: State)
    requires Shape(s) && s.consumer.Sleeping?
    ensures Next(s, s.(consumer := Woken, spurious := s.spurious + 1))
  {
    assert Enabled(s, Spurious);
  }

  // ----- the invariant

  predicate HoldsPut(p: Producer) {
    p.TestPut? || p.UnlockExit? || p.Store? || p.IncPut? || p.IncVal? || p.UnlockPut?
  }
  predicate HoldsReady(p: Producer) { p.TestReady? || p.Signal? || p.IncReady? || p.UnlockReady? }
  predicate ConsumerHolds(c: Consumer) { c.TestGet? || c.CondWait? || c.DecReady? || c.UnlockGet? }

  /** Between the two critical sections: the item is stored but not yet announced. */
  function Between(p: Producer): int {
    One(p.IncVal? || p.UnlockPut? || p.LockReady? || p.TestReady? || p.Signal? || p.IncReady?)
  }
  function Uncounted(p: Producer): int {
    One(Between(p) == 1 || p.UnlockReady? || p.CountPut?)
  }
  function MidInc(p: Producer): int { One(p.IncVal?) }

  /** Items the consumer has claimed: its index, plus one while it uses the current one. */
  function Consumed(s: State): int {
    s.i + One(s.consumer.UnlockGet? || s.consumer.Check? || s.consumer.IncIndex?)
  }

  ghost predicate ProducerInv(s: State, i: nat)
    requires Shape(s) && i < |s.producers|
  {
    var p := s.producers[i];
    && (HoldsPut(p) <==> s.putMutex == Some(Prod(i)))
    && (HoldsReady(p) <==> s.readyMutex == Some(Prod(i)))
    && (p.Store? || p.IncPut? ==> s.nput < s.nitems)
    && (p.IncPut? ==> s.buff[s.nput] == s.nput)
    && (p.UnlockExit? || p.PutDone? ==> s.nput >= s.nitems)
    && (p.Signal? ==> s.nready == 0)
    && (p.IncReady? ==> !s.consumer.Sleeping?)
  }

  ghost predicate Owners(s: State) {
    && (s.putMutex.Some? ==> s.putMutex.value.Prod? && s.putMutex.value.i < |s.producers|)
    && (s.readyMutex.Some? && s.readyMutex.value.Prod? ==> s.readyMutex.value.i < |s.producers|)
  }

  ghost predicate ConsumerInv(s: State)
    requires Shape(s)
  {
    var c := s.consumer;
    && (ConsumerHolds(c) <==> s.readyMutex == Some(Cons))
    && (c.DecReady? ==> s.nready > 0)
    && (c.CondWait? || c.Sleeping? ==> s.nready == 0)
    && (if c.ForTest? then s.i <= Natural(s.nitems)
        else if c.GetDone? then s.i == Natural(s.nitems)
        else s.i < s.nitems)
    && (c.GetDone? ==> s.i >= s.nitems)
    && |s.seen| == s.i + One(c.IncIndex?)
  }

  ghost predicate ItemsConserved(s: State) {
    && s.nready >= 0
    && s.nready + Consumed(s) + Sum(Between, s.producers) == s.nput <= Natural(s.nitems)
    && s.nput == s.nval + Sum(MidInc, s.producers)
    && s.nput == Sum(Id, s.count) + Sum(Uncounted, s.producers)
  }

  ghost predicate Contents(s: State)
    requires Shape(s)
  {
    && (forall k :: 0 <= k < s.nput && k < |s.buff| ==> s.buff[k] == k)
    && (forall k :: 0 <= k < |s.seen| ==> s.seen[k] == k)
    && s.errors == 0
  }

  ghost predicate Inv(s: State) {
    && Shape(s) && Owners(s) && ConsumerInv(s) && ItemsConserved(s) && Contents(s)
    && (forall i: nat :: i < |s.producers| ==> ProducerInv(s, i))
  }

  lemma InitInv(s: State)
    requires Init(s)
    ensures Inv(s)
  {
    SumConstant(Between, s.producers, 0);
    SumConstant(MidInc, s.producers, 0);
    SumConstant(Uncounted, s.producers, 0);
    SumConstant(Id, s.count, 0);
  }

  function PRank(p: Producer): int {
    match p
    case LockPut => 6 case TestPut => 5 case Store => 4 case IncPut => 3
    case UnlockExit => 1 case PutDone => 0
    case IncVal => 20 case UnlockPut => 19 case LockReady => 18 case TestReady => 17
    case Signal => 16 case IncReady => 10 case UnlockReady => 9 case CountPut => 8
  }

  function CRank(c: Consumer): int {
    match c
    case ForTest => 10 case LockGet => 9 case Woken => 9 case TestGet => 8
    case CondWait => 7 case Sleeping => 6 case DecReady => 5 case UnlockGet => 4
    case Check => 3 case IncIndex => 2 case GetDone => 0
  }

  function Measure(s: State): int {
    20 * (Natural(s.nitems) - s.nput) + 10 * (Natural(s.nitems) - s.i) + Sum(PRank, s.producers) + CRank(s.consumer)
  }

  /** How one statement of producer i may move the counters, weighed by where it stands. */
  ghost predicate Balance(s: State, i: nat, n: State)
    requires i < |s.producers| == |s.count| == |n.producers|
  {
    var (p, q) := (s.producers[i], n.producers[i]);
    && n.producers == s.producers[i := q]
    && n.nitems == s.nitems && n.i == s.i && Consumed(n) == Consumed(s)
    && n.nready + Between(q) - n.nput == s.nready + Between(p) - s.nput
    && s.nready <= n.nready && n.nput <= Natural(n.nitems)
    && n.nput - n.nval - MidInc(q) == s.nput - s.nval - MidInc(p)
    && n.count == (if p.CountPut? then s.count[i := s.count[i] + 1] else s.count)
    && n.nput - Uncounted(q) - One(p.CountPut?) == s.nput - Uncounted(p)
    && PRank(q) + CRank(n.consumer) - 20 * n.nput < PRank(p) + CRank(s.consumer) - 20 * s.nput
    && n.spurious == s.spurious
  }

  lemma ProduceBalance(s: State, i: nat)
    requires Inv(s) && Enabled(s, Produce(i))
    ensures Balance(s, i, ProduceStep(s, i))
  {
    hide Sum, Contents, ConsumerInv, Owners;
    assert ProducerInv(s, i);
  }

  lemma SignalBalance(s: State, i: nat)
    requires Inv(s) && Enabled(s, SignalConsumer(i))
    ensures Balance(s, i, Do(s, SignalConsumer(i)))
  {
    hide Sum;
  }

  lemma BalanceConserves(s: State, i: nat, n: State)
    requires Inv(s) && i < |s.producers| == |n.producers| && Balance(s, i, n)
    ensures ItemsConserved(n) && Measure(n) < Measure(s)
  {
    hide Sum, Contents, ConsumerInv, Between, Uncounted, PRank;
    var q := n.producers[i];
    SumUpdate(Between, s.producers, i, q);
    SumUpdate(MidInc, s.producers, i, q);
    SumUpdate(Uncounted, s.producers, i, q);
    SumUpdate(PRank, s.producers, i, q);
    if s.producers[i].CountPut? {
      SumUpdate(Id, s.count, i, s.count[i] + 1);
    }
  }

  /** The value stored is the index it is stored at, whichever producer stores it. */
  lemma ValueIsIndex(s: State, i: nat)
    requires Inv(s) && i < |s.producers| && s.producers[i].Store?
    ensures s.nval == s.nput < |s.buff|
  {
    assert ProducerInv(s, i);
    forall k | 0 <= k < |s.producers| ensures MidInc(s.producers[k]) == 0 {
      assert ProducerInv(s, k);
    }
    SumConstant(MidInc, s.producers, 0);
  }

  /** What a statement of producer i leaves alone: the other threads, and, unless it holds
      the mutex in question, the mutex of another, the array and the counters. */
  ghost predicate Frame(s: State, i: nat, n: State)
    requires i < |s.producers|
  {
    && |n.producers| == |s.producers|
    && (forall j: nat :: j < |s.producers| && j != i ==> n.producers[j] == s.producers[j])
    && n.nitems == s.nitems && n.consumer == s.consumer && n.i == s.i && n.seen == s.seen && n.errors == s.errors
    && (n.putMutex == s.putMutex || (s.putMutex == None && n.putMutex == Some(Prod(i))) ||
        (s.putMutex == Some(Prod(i)) && n.putMutex == None))
    && (n.readyMutex == s.readyMutex || (s.readyMutex == None && n.readyMutex == Some(Prod(i))) ||
        (s.readyMutex == Some(Prod(i)) && n.readyMutex == None))
    && (s.putMutex != Some(Prod(i)) ==> n.nput == s.nput && n.buff == s.buff)
    && (s.readyMutex != Some(Prod(i)) ==> n.nready == s.nready)
    && s.nput <= n.nput && s.nready <= n.nready
    && (n.nready > s.nready ==> !s.consumer.Sleeping? && !s.consumer.CondWait?)
  }

  lemma ProduceFrame(s: State, i: nat)
    requires Inv(s) && Enabled(s, Produce(i))
    ensures Frame(s, i, ProduceStep(s, i))
  {
    assert ProducerInv(s, i);
    assert s.consumer.CondWait? ==> s.readyMutex == Some(Cons);
    hide Inv;
  }

  lemma ProduceKeepsConsumer(s: State, i: nat)
    requires Inv(s) && Enabled(s, Produce(i))
    ensures var n := ProduceStep(s, i); Shape(n) && Owners(n) && ConsumerInv(n)
  {
    ProduceFrame(s, i);
    assert ProducerInv(s, i);
    var n := ProduceStep(s, i);
    forall j: nat | j < |n.producers| ensures n.producers[j].Store? ==> n.nput < MAXNITEMS {
      assert ProducerInv(s, j);
    }
    hide Sum, Between, Uncounted, MidInc, Id, Contents, ItemsConserved;
  }

  lemma ProduceKeepsContents(s: State, i: nat)
    requires Inv(s) && Enabled(s, Produce(i)) && Shape(ProduceStep(s, i))
    ensures Contents(ProduceStep(s, i))
  {
    assert ProducerInv(s, i);
    if s.producers[i].Store? {
      ValueIsIndex(s, i);
    }
    hide Sum, Between, Uncounted, MidInc, Id, ItemsConserved, ConsumerInv;
  }

  lemma ProduceKeepsSelf(s: State, i: nat)
    requires Inv(s) && Enabled(s, Produce(i)) && Shape(ProduceStep(s, i))
    ensures ProducerInv(ProduceStep(s, i), i)
  {
    hide Sum, Between, Uncounted, MidInc, Id, Contents;
    assert ProducerInv(s, i);
    if s.producers[i].Store? {
      ValueIsIndex(s, i);
    }
  }

  lemma ProduceKeepsOther(s: State, i: nat, n: State, j: nat)
    requires Inv(s) && i < |s.producers| && Frame(s, i, n) && Shape(n) && j < |s.producers| && j != i
    ensures ProducerInv(n, j)
  {
    assert ProducerInv(s, i) && ProducerInv(s, j);
    hide Inv;
  }

  lemma SignalKeepsInv(s: State, i: nat)
    requires Inv(s) && Enabled(s, SignalConsumer(i))
    ensures Inv(Do(s, SignalConsumer(i)))
  {
    var n := Do(s, SignalConsumer(i));
    SignalBalance(s, i);
    BalanceConserves(s, i, n);
    hide Sum;
    assert ProducerInv(s, i);
    forall j: nat | j < |n.producers| ensures ProducerInv(n, j) {
      assert ProducerInv(s, j);
    }
  }

  lemma BetweenNonneg(ps: seq<Producer>)
    ensures Sum(Between, ps) >= 0
  {
    SumNonneg(Between, ps);
  }

  lemma ConsumeKeepsInv(s: State, a: Action)
    requires Inv(s) && Enabled(s, a) && (a.Consume? || a.Spurious?)
    ensures Inv(Do(s, a))
  {
    hide Sum, Between, Uncounted, MidInc;
    var n := Do(s, a);
    BetweenNonneg(s.producers);
    forall i: nat | i < |n.producers| ensures ProducerInv(n, i) {
      assert ProducerInv(s, i);
    }
  }

  lemma StepInv(s: State, a: Action)
    requires Inv(s) && Enabled(s, a)
    ensures Inv(Do(s, a))
  {
    match a
    case Produce(i) =>
      ProduceBalance(s, i);
      BalanceConserves(s, i, ProduceStep(s, i));
      ProduceKeepsConsumer(s, i);
      ProduceKeepsContents(s, i);
      ProduceKeepsSelf(s, i);
      ProduceFrame(s, i);
      forall j: nat | j < |s.producers| ensures ProducerInv(ProduceStep(s, i), j) {
        if j != i { ProduceKeepsOther(s, i, ProduceStep(s, i), j); }
      }
    case SignalConsumer(i) =>
      SignalKeepsInv(s, i);
    case _ =>
      ConsumeKeepsInv(s, a);
  }

  lemma EveryRunIsInvariant(run: seq<State>)
    requires IsRun(Init, Next, run)
    ensures forall k :: 0 <= k < |run| ==> Inv(run[k])
  {
    forall s | Init(s) ensures Inv(s) { InitInv(s); }
    forall s, t | Inv(s) && Next(s, t) ensures Inv(t) {
      var a :| Enabled(s, a) && t == Do(s, a);
      StepInv(s, a);
    }
    Invariance(Init, Next, Inv, run);
  }

  /** The check is not idle: in any state, reachable or not, it counts an error exactly if
      what is read is not the index it is read at. */
  lemma TheCheckWorks(s: State)
    requires Enabled(s, Consume) && s.consumer.Check?
    ensures var t := ConsumeStep(s);
      && |t.seen| == |s.seen| + 1 && s.errors <= t.errors
      && (t.errors == s.errors <==> t.seen[|s.seen|] == s.i)
  {
  }

  // ----- the theorems

  /** In every state of every run: announced, consumed and unannounced items add up, the
      consumer's unlocked reads have seen 0, 1, 2, ... and its check never fired. */
  lemma UnlockedReadsAreSafe(run: seq<State>, k: nat)
    requires IsRun(Init, Next, run) && k < |run|
    ensures run[k].nready + Consumed(run[k]) + Sum(Between, run[k].producers) == run[k].nput
    ensures run[k].errors == 0 && forall n :: 0 <= n < |run[k].seen| ==> run[k].seen[n] == n
  {
    EveryRunIsInvariant(run);
    assert Inv(run[k]);
  }

  /** The slot the consumer is about to read, with no lock held, already holds its item and
      is never written again: no step changes any slot below `nput`. */
  lemma ReadSlotsAreFrozen(s: State, a: Action)
    requires Inv(s) && Enabled(s, a)
    ensures s.consumer.Check? ==> s.i < s.nput && s.i < |s.buff| && s.buff[s.i] == s.i
    ensures s.nput <= Do(s, a).nput
    ensures forall k :: 0 <= k < s.nput && k < |s.buff| ==> Do(s, a).buff[k] == s.buff[k]
  {
    SumNonneg(Between, s.producers);
  }

  /** The single consumer never sleeps on available items: while it sleeps `nready` is zero,
      whoever holds the mutex, and nobody is about to raise it. */
  lemma NeverSleepsOnItems(run: seq<State>, k: nat)
    requires IsRun(Init, Next, run) && k < |run| && run[k].consumer.Sleeping?
    ensures run[k].nready == 0
    ensures forall i :: 0 <= i < |run[k].producers| ==> !run[k].producers[i].IncReady?
  {
    EveryRunIsInvariant(run);
    assert Inv(run[k]);
    forall i | 0 <= i < |run[k].producers| ensures !run[k].producers[i].IncReady? {
      assert ProducerInv(run[k], i);
    }
  }

  /** Every step lowers the measure, except that a spurious wakeup raises it by three. */
  lemma StepProgresses(s: State, a: Action)
    requires Inv(s) && Enabled(s, a)
    ensures Measure(Do(s, a)) < Measure(s) + 4 * (Do(s, a).spurious - s.spurious)
    ensures s.spurious <= Do(s, a).spurious
  {
    match a
    case Produce(i) =>
      ProduceBalance(s, i);
      BalanceConserves(s, i, ProduceStep(s, i));
    case SignalConsumer(i) =>
      SignalBalance(s, i);
      BalanceConserves(s, i, Do(s, a));
    case _ =>
  }

  lemma MeasureNonneg(s: State)
    requires Inv(s)
    ensures Measure(s) >= 0
  {
    SumNonneg(PRank, s.producers);
    SumNonneg(Between, s.producers);
  }

  /** Every run terminates: its length is bounded by the items and threads, plus four steps
      for every spurious wakeup the scheduler inserts. */
  lemma EveryRunIsFinite(run: seq<State>)
    requires IsRun(Init, Next, run)
    ensures |run| <= 30 * Natural(run[0].nitems) + 6 * |run[0].producers| + 11 + 4 * Last(run).spurious
  {
    EveryRunIsInvariant(run);
    var n := 0;
    while n + 1 < |run|
      invariant 0 <= n < |run|
      invariant Measure(run[n]) + n <= Measure(run[0]) + 4 * run[n].spurious
    {
      assert Next(run[n], run[n + 1]);
      var a :| Enabled(run[n], a) && run[n + 1] == Do(run[n], a);
      StepProgresses(run[n], a);
      n := n + 1;
    }
    MeasureNonneg(run[n]);
    SumConstant(PRank, run[0].producers, 6);
  }

  lemma PoolIsFixed(s: State, a: Action)
    requires Enabled(s, a)
    ensures |Do(s, a).producers| == |s.producers| && Do(s, a).nitems == s.nitems
  {
  }

  /** Nothing can happen any more, short of a spurious wakeup. */
  ghost predicate Terminal(s: State) {
    forall a :: Enabled(s, a) ==> a.Spurious?
  }

  predicate AllReturned(s: State) {
    s.consumer.GetDone? && forall i :: 0 <= i < |s.producers| ==> s.producers[i].PutDone?
  }

  lemma TerminalPoints(s: State)
    requires Inv(s) && Terminal(s)
    ensures s.consumer.Sleeping? || s.consumer.GetDone?
    ensures forall i :: 0 <= i < |s.producers| ==> s.producers[i].PutDone?
  {
    assert !Enabled(s, Consume);
    forall i: nat | i < |s.producers|
      ensures s.producers[i].PutDone? || s.producers[i].LockPut? || s.producers[i].LockReady?
    {
      assert !Enabled(s, Produce(i)) && !Enabled(s, SignalConsumer(i));
    }
    assert s.putMutex.Some? ==> ProducerInv(s, s.putMutex.value.i);
    assert s.readyMutex.Some? && s.readyMutex.value.Prod? ==> ProducerInv(s, s.readyMutex.value.i);
    forall i: nat | i < |s.producers| ensures s.producers[i].PutDone? {
      assert !Enabled(s, Produce(i));
    }
  }

  /** Deadlock freedom with its exact condition: when nothing but spurious wakeups can
      happen, every thread has returned, unless items were asked for and no producer runs. */
  lemma StuckMeansFinished(s: State)
    requires Inv(s) && Terminal(s)
    ensures AllReturned(s) <==> |s.producers| > 0 || s.nitems <= 0
    ensures AllReturned(s) ==>
      && s.nput == s.i == Sum(Id, s.count) == Natural(s.nitems)
      && s.nready == 0 && s.seen == seq(Natural(s.nitems), n => n)
  {
    TerminalPoints(s);
    SumConstant(Between, s.producers, 0);
    SumConstant(Uncounted, s.producers, 0);
    if |s.producers| > 0 {
      assert ProducerInv(s, 0);
    }
  }

  // ----- what each producer counts

  /** Item stored by a thread and not yet counted by it. */
  function Owes(p: Producer): int { One(p.IncPut? || Uncounted(p) == 1) }

  /** Each producer counts the items it has stored itself. */
  ghost predicate Counted(s: State) {
    && |s.count| == |s.producers|
    && forall i: nat :: i < |s.producers| ==> Times(s.storedBy, i) == s.count[i] + Owes(s.producers[i])
  }

  lemma ProduceOwes(s: State, i: nat)
    requires Enabled(s, Produce(i))
    ensures var t := ProduceStep(s, i);
      var (p, q) := (s.producers[i], t.producers[i]);
      && t.producers == s.producers[i := q] && t.storedBy == s.storedBy + (if p.Store? then [i] else [])
      && t.count == (if p.CountPut? then s.count[i := s.count[i] + 1] else s.count)
      && Owes(q) == Owes(p) + One(p.Store?) - One(p.CountPut?)
  {
  }

  lemma StepCounted(s: State, a: Action)
    requires Counted(s) && Enabled(s, a)
    ensures Counted(Do(s, a))
  {
    if a.Produce? {
      ProduceOwes(s, a.i);
      var t := ProduceStep(s, a.i);
      hide ProduceStep, Owes, Times;
      forall k: nat | k < |t.producers| ensures Times(t.storedBy, k) == t.count[k] + Owes(t.producers[k]) {
        assert Times(s.storedBy, k) == s.count[k] + Owes(s.producers[k]);
        TimesOneMore(s.storedBy, a.i, k);
      }
    } else {
      hide Times;
    }
  }

  /** In every state of every run each producer's count is the number of items it has stored
      itself, up to the one it is about to count. */
  lemma {:induction false} EveryProducerCountsItsOwn(run: seq<State>, k: nat)
    requires IsRun(Init, Next, run) && k < |run|
    ensures Counted(run[k])
  {
    if k > 0 {
      EveryProducerCountsItsOwn(run, k - 1);
      assert Next(run[k - 1], run[k]);
      var a :| Enabled(run[k - 1], a) && run[k] == Do(run[k - 1], a);
      StepCounted(run[k - 1], a);
    }
  }

  // ----- the program

  class Shared {
    const nitems: int
    const buff: array<int>
    var nput: int
    var nval: int
    var putMutex: Option<Party>
    var nready: int
    var readyMutex: Option<Party>
    var producers: seq<Producer>
    var count: seq<int>
    var storedBy: seq<nat>
    var consumer: Consumer
    var i: int
    var seen: seq<int>
    var errors: int
    var spurious: nat

    function View(): State
      reads this, buff
    {
      State(nitems, buff[..], nput, nval, putMutex, nready, readyMutex,
            producers, count, storedBy, consumer, i, seen, errors, spurious)
    }

    /** `main`: the number of items is capped at MAXNITEMS. */
    constructor (items: int, nthreads: nat)
      ensures Init(View()) && fresh(buff) && |producers| == nthreads
      ensures nitems == if items < MAXNITEMS then items else MAXNITEMS
    {
      nitems := if items < MAXNITEMS then items else MAXNITEMS;
      buff := new int[MAXNITEMS];
      nput, nval, putMutex, nready, readyMutex := 0, 0, None, 0, None;
      producers, count, storedBy := seq(nthreads, _ => LockPut), seq(nthreads, _ => 0), [];
      consumer, i, seen, errors, spurious := ForTest, 0, [], 0, 0;
    }

    /** One statement of `produce`. */
    method Produce(t: nat)
      requires if t < |producers| && producers[t].Signal? && consumer.Sleeping?
               then Enabled(View(), SignalConsumer(t)) else Enabled(View(), Action.Produce(t))
      modifies this, buff
      ensures View() == Do(old(View()),
        if old(producers[t].Signal? && consumer.Sleeping?) then SignalConsumer(t) else Action.Produce(t))
    {
      match producers[t]
      case LockPut =>
        putMutex, producers := Some(Prod(t)), producers[t := TestPut];
      case TestPut =>
        if nput >= nitems {
          producers := producers[t := UnlockExit];
        } else {
          producers := producers[t := Store];
        }
      case UnlockExit =>
        putMutex, producers := None, producers[t := PutDone];
      case Store =>
        buff[nput] := nval;
        storedBy := storedBy + [t];
        producers := producers[t := IncPut];
      case IncPut =>
        nput, producers := nput + 1, producers[t := IncVal];
      case IncVal =>
        nval, producers := nval + 1, producers[t := UnlockPut];
      case UnlockPut =>
        putMutex, producers := None, producers[t := LockReady];
      case LockReady =>
        readyMutex, producers := Some(Prod(t)), producers[t := TestReady];
      case TestReady =>
        if nready == 0 {
          producers := producers[t := Signal];
        } else {
          producers := producers[t := IncReady];
        }
      case Signal =>
        if consumer.Sleeping? {
          consumer := Woken;
        }
        producers := producers[t := IncReady];
      case IncReady =>
        nready, producers := nready + 1, producers[t := UnlockReady];
      case UnlockReady =>
        readyMutex, producers := None, producers[t := CountPut];
      case CountPut =>
        count, producers := count[t := count[t] + 1], producers[t := LockPut];
    }

    /** One statement of `consume`. */
    method Consume()
      requires Enabled(View(), Action.Consume)
      modifies this
      ensures View() == Do(old(View()), Action.Consume)
    {
      match consumer
      case ForTest => consumer := if i < nitems then LockGet else GetDone;
      case LockGet => readyMutex, consumer := Some(Cons), TestGet;
      case Woken => readyMutex, consumer := Some(Cons), TestGet;
      case TestGet =>
        if nready == 0 {
          consumer := CondWait;
        } else {
          consumer := DecReady;
        }
      case CondWait => readyMutex, consumer := None, Sleeping;
      case DecReady => nready, consumer := nready - 1, UnlockGet;
      case UnlockGet => readyMutex, consumer := None, Check;
      case Check =>
        if buff[i] != i {
          errors := errors + 1;
        }
        seen, consumer := seen + [buff[i]], IncIndex;
      case IncIndex => i, consumer := i + 1, ForTest;
    }

    /** The wait of the consumer ends without a signal. */
    method WakeUp()
      requires Enabled(View(), Spurious)
      modifies this
      ensures View() == Do(old(View()), Spurious)
    {
      consumer, spurious := Woken, spurious + 1;
    }

    /** Lets some thread that can move do so, or ends a wait if the budget allows it. */
    method Schedule(budget: nat) returns (moved: bool, left: nat)
      requires Inv(View())
      modifies this, buff
      ensures moved ==> exists a :: Enabled(old(View()), a) && View() == Do(old(View()), a)
      ensures moved ==> left + View().spurious == budget + old(View().spurious)
      ensures !moved ==> Terminal(View()) && View() == old(View())
    {
      assert Shape(View());
      hide Sum, Inv;
      moved, left := true, budget;
      if {
        case t: nat :| t < |producers| && producers[t].Signal? && consumer.Sleeping? =>
          assert Enabled(View(), SignalConsumer(t));
          Produce(t);
        case t: nat :| t < |producers| && Enabled(View(), Action.Produce(t)) =>
          Produce(t);
        case Enabled(View(), Action.Consume) =>
          Consume();
        case consumer.Sleeping? && budget > 0 =>
          assert Enabled(View(), Spurious);
          left := budget - 1;
          WakeUp();
        case (forall t: nat :: t < |producers| ==>
               !(producers[t].Signal? && consumer.Sleeping?) && !Enabled(View(), Action.Produce(t))) &&
             !Enabled(View(), Action.Consume) =>
          moved := false;
      }
    }

    /** Runs the threads under an arbitrary scheduler that inserts at most `budget` spurious
        wakeups, until nothing else can happen. */
    method Run(budget: nat)
      requires Init(View())
      modifies this, buff
      ensures Inv(View()) && Terminal(View()) && |producers| == old(|producers|)
      ensures AllReturned(View()) <==> |producers| > 0 || nitems <= 0
      ensures AllReturned(View()) ==> errors == 0 && seen == seq(Natural(nitems), n => n)
    {
      InitInv(View());
      var left: nat, moved := budget, true;
      while moved
        invariant Inv(View()) && |producers| == old(|producers|)
        invariant !moved ==> Terminal(View())
        decreases moved, Measure(View()) + 4 * left
      {
        MeasureNonneg(View());
        ghost var before := View();
        moved, left := Schedule(left);
        if moved {
          ghost var a :| Enabled(before, a) && View() == Do(before, a);
          StepInv(before, a);
          StepProgresses(before, a);
          MeasureNonneg(View());
          PoolIsFixed(before, a);
        }
      }
      StuckMeansFinished(View());
    }
  }
}
