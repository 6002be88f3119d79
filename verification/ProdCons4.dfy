/** The many-producer, many-consumer bounded buffer of pxsem/prodcons4.cpp: three
    semaphores and a shutdown hand-off in which every exiting producer posts one extra
    `nstored` token and every exiting consumer passes its token on.

    Every source statement is one atomic step of the thread that executes it, and any
    enabled thread may go next. */
module ProdCons4 {
  import opened Tally
  import opened Runs

  const NBUFF: nat := 10

  /** Where a producer stands, named after the statement it executes next. */
  datatype Producer =
    | WaitEmpty | LockPut | TestPut
    | PostExtra | ReturnEmpty | UnlockExit | PutDone
    | Store | IncPut | IncPutVal | UnlockPut | PostStored | CountPut

  /** Where a consumer stands. */
  datatype Consumer =
    | WaitStored | LockGet | TestGet
    | PassStored | UnlockQuit | GetDone
    | Index | Check | IncGet | IncGetVal | UnlockGet | PostEmpty | CountGet

  /** The shared structure, the threads, and two observations: the values consumers
      fetched, in order, how often the consumer's check printed an error, and which threads
      stored and fetched the items. */
  datatype State = State(
    nitems: int,
    buff: seq<int>, nput: int, nputval: int, nget: int, ngetval: int,
    mutex: int, nempty: int, nstored: int,
    producers: seq<Producer>, prodcount: seq<int>,
    consumers: seq<Consumer>, index: seq<int>, conscount: seq<int>,
    fetched: seq<int>, errors: int, storedBy: seq<nat>, fetchedBy: seq<nat>)

  ghost predicate Shape(s: State) {
    && |s.buff| == NBUFF && |s.prodcount| == |s.producers|
    && |s.index| == |s.consumers| == |s.conscount|
    && 0 <= s.nput && 0 <= s.nget
    && (forall j :: 0 <= j < |s.index| ==> 0 <= s.index[j] < NBUFF)
  }

  ghost predicate Init(s: State) {
    && s.buff == seq(NBUFF, _ => 0)
    && s.nput == s.nputval == s.nget == s.ngetval == 0
    && s.mutex == 1 && s.nempty == NBUFF && s.nstored == 0
    && s.producers == seq(|s.producers|, _ => WaitEmpty)
    && s.prodcount == seq(|s.producers|, _ => 0)
    && s.consumers == seq(|s.consumers|, _ => WaitStored)
    && s.index == seq(|s.consumers|, _ => 0)
    && s.conscount == seq(|s.consumers|, _ => 0)
    && s.fetched == [] && s.errors == 0 && s.storedBy == s.fetchedBy == []
  }

  predicate ProducerEnabled(s: State, i: nat) {
    i < |s.producers| &&
    match s.producers[i]
    case WaitEmpty => s.nempty > 0
    case LockPut => s.mutex > 0
    case PutDone => false
    case _ => true
  }

  /** One statement of `produce` executed by thread i. */
  function ProducerNext(s: State, i: nat): State
    requires |s.buff| == NBUFF && |s.prodcount| == |s.producers| && 0 <= s.nput
    requires ProducerEnabled(s, i)
  {
    match s.producers[i]
    case WaitEmpty => s.(nempty := s.nempty - 1, producers := s.producers[i := LockPut])
    case LockPut => s.(mutex := s.mutex - 1, producers := s.producers[i := TestPut])
    case TestPut => s.(producers := s.producers[i := if s.nput >= s.nitems then PostExtra else Store])
    case PostExtra => s.(nstored := s.nstored + 1, producers := s.producers[i := ReturnEmpty])
    case ReturnEmpty => s.(nempty := s.nempty + 1, producers := s.producers[i := UnlockExit])
    case UnlockExit => s.(mutex := s.mutex + 1, producers := s.producers[i := PutDone])
    case Store => s.(buff := s.buff[s.nput % NBUFF := s.nputval], producers := s.producers[i := IncPut],
                     storedBy := s.storedBy + [i])
    case IncPut => s.(nput := s.nput + 1, producers := s.producers[i := IncPutVal])
    case IncPutVal => s.(nputval := s.nputval + 1, producers := s.producers[i := UnlockPut])
    case UnlockPut => s.(mutex := s.mutex + 1, producers := s.producers[i := PostStored])
    case PostStored => s.(nstored := s.nstored + 1, producers := s.producers[i := CountPut])
    case CountPut => s.(prodcount := s.prodcount[i := s.prodcount[i] + 1],
                        producers := s.producers[i := WaitEmpty])
  }

  predicate ConsumerEnabled(s: State, j: nat) {
    j < |s.consumers| &&
    match s.consumers[j]
    case WaitStored => s.nstored > 0
    case LockGet => s.mutex > 0
    case GetDone => false
    case _ => true
  }

  /** One statement of `consume` executed by thread j. */
  function ConsumerNext(s: State, j: nat): State
    requires |s.buff| == NBUFF && |s.index| == |s.consumers| == |s.conscount| && 0 <= s.nget
    requires forall k :: 0 <= k < |s.index| ==> 0 <= s.index[k] < NBUFF
    requires ConsumerEnabled(s, j)
  {
    match s.consumers[j]
    case WaitStored => s.(nstored := s.nstored - 1, consumers := s.consumers[j := LockGet])
    case LockGet => s.(mutex := s.mutex - 1, consumers := s.consumers[j := TestGet])
    case TestGet => s.(consumers := s.consumers[j := if s.nget >= s.nitems then PassStored else Index])
    case PassStored => s.(nstored := s.nstored + 1, consumers := s.consumers[j := UnlockQuit])
    case UnlockQuit => s.(mutex := s.mutex + 1, consumers := s.consumers[j := GetDone])
    case Index => s.(index := s.index[j := s.nget % NBUFF], consumers := s.consumers[j := Check])
    case Check =>
      s.(errors := s.errors + (if s.buff[s.index[j]] != s.ngetval then 1 else 0),
         fetched := s.fetched + [s.buff[s.index[j]]], fetchedBy := s.fetchedBy + [j],
         consumers := s.consumers[j := IncGet])
    case IncGet => s.(nget := s.nget + 1, consumers := s.consumers[j := IncGetVal])
    case IncGetVal => s.(ngetval := s.ngetval + 1, consumers := s.consumers[j := UnlockGet])
    case UnlockGet => s.(mutex := s.mutex + 1, consumers := s.consumers[j := PostEmpty])
    case PostEmpty => s.(nempty := s.nempty + 1, consumers := s.consumers[j := CountGet])
    case CountGet => s.(conscount := s.conscount[j := s.conscount[j] + 1],
                        consumers := s.consumers[j := WaitStored])
  }

  ghost predicate Next(s: State, t: State) {
    && Shape(s)
    && ((exists i: nat :: ProducerEnabled(s, i) && t == ProducerNext(s, i)) ||
        (exists j: nat :: ConsumerEnabled(s, j) && t == ConsumerNext(s, j)))
  }

  /** No thread can move: every one has returned or is blocked on a semaphore. */
  ghost predicate Terminal(s: State) {
    && (forall i: nat :: !ProducerEnabled(s, i))
    && (forall j: nat :: !ConsumerEnabled(s, j))
  }

  predicate AllReturned(s: State) {
    && (forall i :: 0 <= i < |s.producers| ==> s.producers[i] == PutDone)
    && (forall j :: 0 <= j < |s.consumers| ==> s.consumers[j] == GetDone)
  }

  // ----- weights of program points

  /** Holds `mutex`. */
  function PHolds(p: Producer): int {
    One(p.TestPut? || p.PostExtra? || p.ReturnEmpty? || p.UnlockExit? ||
        p.Store? || p.IncPut? || p.IncPutVal? || p.UnlockPut?)
  }
  function CHolds(c: Consumer): int {
    One(c.TestGet? || c.PassStored? || c.UnlockQuit? ||
        c.Index? || c.Check? || c.IncGet? || c.IncGetVal? || c.UnlockGet?)
  }
  /** Carries an `nempty` token that is neither in the semaphore nor a counted item. */
  function PEmpty(p: Producer): int {
    One(p.LockPut? || p.TestPut? || p.PostExtra? || p.ReturnEmpty? || p.Store? || p.IncPut?)
  }
  function CEmpty(c: Consumer): int { One(c.IncGetVal? || c.UnlockGet? || c.PostEmpty?) }
  /** Carries an `nstored` token. */
  function PStored(p: Producer): int { One(p.IncPutVal? || p.UnlockPut? || p.PostStored?) }
  function CStored(c: Consumer): int {
    One(c.LockGet? || c.TestGet? || c.PassStored? || c.Index? || c.Check? || c.IncGet?)
  }
  /** Has posted the extra shutdown token. */
  function PExtra(p: Producer): int { One(p.ReturnEmpty? || p.UnlockExit? || p.PutDone?) }
  /** Between the two increments of a critical section. */
  function PBetween(p: Producer): int { One(p.IncPutVal?) }
  function CBetween(c: Consumer): int { One(c.IncGetVal?) }
  /** Item handled but not yet counted by the thread. */
  function PUncounted(p: Producer): int { One(p.IncPutVal? || p.UnlockPut? || p.PostStored? || p.CountPut?) }
  function CUncounted(c: Consumer): int { One(c.IncGetVal? || c.UnlockGet? || c.PostEmpty? || c.CountGet?) }
  function CFetched(c: Consumer): int { One(c.IncGet?) }

  /** Steps to the end of the current pass through the loop. */
  function PRank(p: Producer): int {
    match p
    case UnlockPut => 12 case IncPutVal => 13 case PostStored => 11 case CountPut => 10
    case WaitEmpty => 9 case LockPut => 8 case TestPut => 7
    case Store => 6 case IncPut => 5
    case PostExtra => 3 case ReturnEmpty => 2 case UnlockExit => 1 case PutDone => 0
  }
  function CRank(c: Consumer): int {
    match c
    case IncGetVal => 13 case UnlockGet => 12 case PostEmpty => 11 case CountGet => 10
    case WaitStored => 9 case LockGet => 8 case TestGet => 7
    case Index => 6 case Check => 5 case IncGet => 4
    case PassStored => 2 case UnlockQuit => 1 case GetDone => 0
  }

  /** What is left to do; every step of every thread lowers it. */
  function Measure(s: State): int {
    10 * (Natural(s.nitems) - s.nput) + 10 * (Natural(s.nitems) - s.nget)
    + Sum(PRank, s.producers) + Sum(CRank, s.consumers)
  }

  // ----- the invariant

  /** Conservation: the mutex is held by at most one thread, every `nempty` and every
      `nstored` token is accounted for, and so is every item. */
  ghost predicate Conserved(s: State) {
    TokensConserved(s) && ItemsConserved(s)
  }

  ghost predicate TokensConserved(s: State) {
    && s.mutex >= 0 && s.nempty >= 0 && s.nstored >= 0
    && s.mutex + Sum(PHolds, s.producers) + Sum(CHolds, s.consumers) == 1
    && s.nempty + Sum(PEmpty, s.producers) + Sum(CEmpty, s.consumers) + s.nput - s.nget == NBUFF
    && s.nstored + Sum(PStored, s.producers) + Sum(CStored, s.consumers)
       == s.nput - s.nget + Sum(PExtra, s.producers)
  }

  ghost predicate ItemsConserved(s: State) {
    && s.nput == s.nputval + Sum(PBetween, s.producers)
    && s.nget == s.ngetval + Sum(CBetween, s.consumers)
    && s.nput == Sum(Id, s.prodcount) + Sum(PUncounted, s.producers)
    && s.nget == Sum(Id, s.conscount) + Sum(CUncounted, s.consumers)
    && |s.fetched| == s.nget + Sum(CFetched, s.consumers)
    && s.nget <= s.nput <= Natural(s.nitems)
  }

  /** What a producer knows where it stands. */
  ghost predicate ProducerKnows(s: State, p: Producer)
    requires Shape(s)
  {
    match p
    case Store => s.nput < s.nitems
    case IncPut => s.nput < s.nitems && s.buff[s.nput % NBUFF] == s.nput
    case PostExtra | ReturnEmpty | UnlockExit | PutDone => s.nitems <= s.nput && s.nitems < s.nget + NBUFF
    case _ => true
  }

  /** What a consumer knows where it stands. */
  ghost predicate ConsumerKnows(s: State, c: Consumer, i: int) {
    match c
    case Index | IncGet => s.nget < s.nput && s.nget < s.nitems
    case Check => s.nget < s.nput && s.nget < s.nitems && i == s.nget % NBUFF
    case PassStored | UnlockQuit | GetDone => s.nitems <= s.nget && |s.producers| > 0
    case _ => true
  }

  ghost predicate Knowledge(s: State)
    requires Shape(s)
  {
    && (forall i :: 0 <= i < |s.producers| ==> ProducerKnows(s, s.producers[i]))
    && (forall j :: 0 <= j < |s.consumers| ==> ConsumerKnows(s, s.consumers[j], s.index[j]))
  }

  /** Unread slots hold their item numbers, and what was fetched is 0, 1, 2, ... */
  ghost predicate Contents(s: State)
    requires Shape(s)
  {
    && (forall k :: s.nget <= k < s.nput ==> s.buff[k % NBUFF] == k)
    && (forall k :: 0 <= k < |s.fetched| ==> s.fetched[k] == k)
    && s.errors == 0
  }

  /** Item handled by a thread and not yet counted by it. */
  function POwes(p: Producer): int { One(p.IncPut? || PUncounted(p) == 1) }
  function COwes(c: Consumer): int { One(c.IncGet? || CUncounted(c) == 1) }

  /** Each thread counts the items it has handled itself. */
  ghost predicate Counted(s: State)
    requires Shape(s)
  {
    && (forall i: nat :: i < |s.producers| ==> Times(s.storedBy, i) == s.prodcount[i] + POwes(s.producers[i]))
    && (forall j: nat :: j < |s.consumers| ==> Times(s.fetchedBy, j) == s.conscount[j] + COwes(s.consumers[j]))
    && |s.fetchedBy| == |s.fetched|
  }

  ghost predicate Inv(s: State) {
    Shape(s) && Conserved(s) && Knowledge(s) && Contents(s) && Counted(s)
  }

  // ----- proofs

  lemma InitInv(s: State)
    requires Init(s)
    ensures Inv(s)
  {
    SumConstant(PHolds, s.producers, 0);
    SumConstant(PEmpty, s.producers, 0);
    SumConstant(PStored, s.producers, 0);
    SumConstant(PExtra, s.producers, 0);
    SumConstant(PBetween, s.producers, 0);
    SumConstant(PUncounted, s.producers, 0);
    SumConstant(CHolds, s.consumers, 0);
    SumConstant(CEmpty, s.consumers, 0);
    SumConstant(CStored, s.consumers, 0);
    SumConstant(CBetween, s.consumers, 0);
    SumConstant(CUncounted, s.consumers, 0);
    SumConstant(CFetched, s.consumers, 0);
    SumConstant(Id, s.prodcount, 0);
    SumConstant(Id, s.conscount, 0);
  }

  /** Mutual exclusion: a producer inside its critical section is alone. */
  lemma ProducerAlone(s: State, i: nat)
    requires Conserved(s)
    requires i < |s.producers| && PHolds(s.producers[i]) == 1
    ensures s.mutex == 0
    ensures forall k :: 0 <= k < |s.producers| && k != i ==> PHolds(s.producers[k]) == 0
    ensures forall j :: 0 <= j < |s.consumers| ==> CHolds(s.consumers[j]) == 0
  {
    SumCovers(PHolds, s.producers, i);
    SumNonneg(CHolds, s.consumers);
    forall k | 0 <= k < |s.producers| && k != i ensures PHolds(s.producers[k]) == 0 {
      if i < k { SumCoversTwo(PHolds, s.producers, i, k); } else { SumCoversTwo(PHolds, s.producers, k, i); }
    }
    forall j | 0 <= j < |s.consumers| ensures CHolds(s.consumers[j]) == 0 {
      SumCovers(CHolds, s.consumers, j);
    }
  }

  lemma ConsumerAlone(s: State, j: nat)
    requires Conserved(s)
    requires j < |s.consumers| && CHolds(s.consumers[j]) == 1
    ensures s.mutex == 0
    ensures forall k :: 0 <= k < |s.consumers| && k != j ==> CHolds(s.consumers[k]) == 0
    ensures forall i :: 0 <= i < |s.producers| ==> PHolds(s.producers[i]) == 0
  {
    SumCovers(CHolds, s.consumers, j);
    SumNonneg(PHolds, s.producers);
    forall k | 0 <= k < |s.consumers| && k != j ensures CHolds(s.consumers[k]) == 0 {
      if j < k { SumCoversTwo(CHolds, s.consumers, j, k); } else { SumCoversTwo(CHolds, s.consumers, k, j); }
    }
    forall i | 0 <= i < |s.producers| ensures PHolds(s.producers[i]) == 0 {
      SumCovers(PHolds, s.producers, i);
    }
  }

  /** The slot a producer is about to fill holds no unread item. */
  lemma SlotIsFree(s: State, i: nat)
    requires Inv(s)
    requires i < |s.producers| && s.producers[i].Store?
    ensures s.nput - s.nget < NBUFF
    ensures forall k :: s.nget <= k < s.nput ==> k % NBUFF != s.nput % NBUFF
    ensures s.nputval == s.nput
  {
    ProducerAlone(s, i);
    SumCovers(PEmpty, s.producers, i);
    SumNonneg(CEmpty, s.consumers);
    SumConstantBut(s.producers, i);
  }

  lemma SumConstantBut(ps: seq<Producer>, i: nat)
    requires i < |ps| && !ps[i].IncPutVal?
    requires forall k :: 0 <= k < |ps| && k != i ==> PHolds(ps[k]) == 0
    ensures Sum(PBetween, ps) == 0
  {
    SumConstant(PBetween, ps, 0);
  }

  /** A consumer past its first test finds a stored item: the extra shutdown tokens
      cannot let it run ahead of the producers. */
  lemma ItemIsThere(s: State, j: nat)
    requires Inv(s)
    requires j < |s.consumers| && s.consumers[j].TestGet?
    ensures s.nget < s.nitems ==> s.nget < s.nput
    ensures |s.producers| > 0
  {
    SumCovers(CStored, s.consumers, j);
    SumNonneg(PStored, s.producers);
    if Sum(PExtra, s.producers) > 0 {
      var i := SumWitness(PExtra, s.producers);
      assert ProducerKnows(s, s.producers[i]);
    }
  }

  lemma ProducerKeepsTokens(s: State, i: nat)
    requires Inv(s) && ProducerEnabled(s, i)
    ensures TokensConserved(ProducerNext(s, i))
  {
    hide Sum;
    var t := ProducerNext(s, i);
    var p := t.producers[i];
    SumUpdate(PHolds, s.producers, i, p);
    SumUpdate(PEmpty, s.producers, i, p);
    SumUpdate(PStored, s.producers, i, p);
    SumUpdate(PExtra, s.producers, i, p);
    assert t.producers == s.producers[i := p];
  }

  lemma ProducerKeepsItems(s: State, i: nat)
    requires Inv(s) && ProducerEnabled(s, i)
    ensures Shape(ProducerNext(s, i)) && ItemsConserved(ProducerNext(s, i))
  {
    hide Sum;
    var t := ProducerNext(s, i);
    var p := t.producers[i];
    SumUpdate(PBetween, s.producers, i, p);
    SumUpdate(PUncounted, s.producers, i, p);
    assert t.producers == s.producers[i := p];
    assert ProducerKnows(s, s.producers[i]);
    if s.producers[i].CountPut? {
      SumUpdate(Id, s.prodcount, i, s.prodcount[i] + 1);
    }
  }

  lemma ProducerWorks(s: State, i: nat)
    requires Inv(s) && ProducerEnabled(s, i)
    ensures Measure(ProducerNext(s, i)) < Measure(s)
  {
    hide Sum;
    var t := ProducerNext(s, i);
    var p := t.producers[i];
    SumUpdate(PRank, s.producers, i, p);
    assert t.producers == s.producers[i := p];
  }

  lemma ProducerKeepsContents(s: State, i: nat)
    requires Inv(s) && ProducerEnabled(s, i)
    ensures Knowledge(ProducerNext(s, i)) && Contents(ProducerNext(s, i))
  {
    hide Sum;
    var t := ProducerNext(s, i);
    assert ProducerKnows(s, s.producers[i]);
    if PHolds(s.producers[i]) == 1 {
      ProducerAlone(s, i);
    }
    if s.producers[i].Store? {
      SlotIsFree(s, i);
    }
    if s.producers[i].TestPut? {
      SumCovers(PEmpty, s.producers, i);
      SumNonneg(CEmpty, s.consumers);
    }
    forall k | 0 <= k < |t.producers| ensures ProducerKnows(t, t.producers[k]) {
      assert ProducerKnows(s, s.producers[k]);
    }
    forall k | 0 <= k < |t.consumers| ensures ConsumerKnows(t, t.consumers[k], t.index[k]) {
      assert ConsumerKnows(s, s.consumers[k], s.index[k]);
    }
  }

  lemma ConsumerKeepsTokens(s: State, j: nat)
    requires Inv(s) && ConsumerEnabled(s, j)
    ensures TokensConserved(ConsumerNext(s, j))
  {
    hide Sum;
    var t := ConsumerNext(s, j);
    var c := t.consumers[j];
    SumUpdate(CHolds, s.consumers, j, c);
    SumUpdate(CEmpty, s.consumers, j, c);
    SumUpdate(CStored, s.consumers, j, c);
    assert t.consumers == s.consumers[j := c];
  }

  lemma ConsumerKeepsItems(s: State, j: nat)
    requires Inv(s) && ConsumerEnabled(s, j)
    ensures Shape(ConsumerNext(s, j)) && ItemsConserved(ConsumerNext(s, j))
  {
    hide Sum;
    var t := ConsumerNext(s, j);
    var c := t.consumers[j];
    SumUpdate(CBetween, s.consumers, j, c);
    SumUpdate(CUncounted, s.consumers, j, c);
    SumUpdate(CFetched, s.consumers, j, c);
    assert t.consumers == s.consumers[j := c];
    assert ConsumerKnows(s, s.consumers[j], s.index[j]);
    if s.consumers[j].CountGet? {
      SumUpdate(Id, s.conscount, j, s.conscount[j] + 1);
    }
  }

  lemma ConsumerWorks(s: State, j: nat)
    requires Inv(s) && ConsumerEnabled(s, j)
    ensures Measure(ConsumerNext(s, j)) < Measure(s)
  {
    hide Sum;
    var t := ConsumerNext(s, j);
    var c := t.consumers[j];
    SumUpdate(CRank, s.consumers, j, c);
    assert t.consumers == s.consumers[j := c];
  }

  /** What a consumer is about to check is the next item. */
  lemma CheckedIsNext(s: State, j: nat)
    requires Inv(s) && j < |s.consumers| && s.consumers[j].Check?
    ensures s.ngetval == s.nget == |s.fetched| && s.buff[s.index[j]] == s.nget
  {
    assert ConsumerKnows(s, s.consumers[j], s.index[j]);
    ConsumerAlone(s, j);
    SumConstant(CBetween, s.consumers, 0);
    SumConstant(CFetched, s.consumers, 0);
  }

  lemma ConsumerKeepsProducers(s: State, j: nat, i: nat)
    requires Inv(s) && ConsumerEnabled(s, j) && Shape(ConsumerNext(s, j)) && i < |s.producers|
    ensures var t := ConsumerNext(s, j); t.producers == s.producers && ProducerKnows(t, s.producers[i])
  {
    assert ProducerKnows(s, s.producers[i]) && ConsumerKnows(s, s.consumers[j], s.index[j]);
    if CHolds(s.consumers[j]) == 1 {
      ConsumerAlone(s, j);
    }
    hide Inv;
  }

  lemma ConsumerKeepsOther(s: State, j: nat, k: nat)
    requires Inv(s) && ConsumerEnabled(s, j) && Shape(ConsumerNext(s, j)) && k < |s.consumers| && k != j
    ensures var t := ConsumerNext(s, j);
      k < |t.consumers| && ConsumerKnows(t, t.consumers[k], t.index[k])
  {
    assert ConsumerKnows(s, s.consumers[k], s.index[k]) && ConsumerKnows(s, s.consumers[j], s.index[j]);
    if CHolds(s.consumers[j]) == 1 {
      ConsumerAlone(s, j);
    }
    hide Inv;
  }

  lemma ConsumerKeepsSelf(s: State, j: nat)
    requires Inv(s) && ConsumerEnabled(s, j) && Shape(ConsumerNext(s, j))
    ensures var t := ConsumerNext(s, j);
      j < |t.consumers| && ConsumerKnows(t, t.consumers[j], t.index[j])
  {
    assert ConsumerKnows(s, s.consumers[j], s.index[j]);
    if s.consumers[j].TestGet? {
      ItemIsThere(s, j);
    }
    hide Inv;
  }

  lemma ConsumerKeepsKnowledge(s: State, j: nat)
    requires Inv(s) && ConsumerEnabled(s, j) && Shape(ConsumerNext(s, j))
    ensures Knowledge(ConsumerNext(s, j))
  {
    var t := ConsumerNext(s, j);
    forall i: nat | i < |s.producers| ensures t.producers == s.producers && ProducerKnows(t, s.producers[i]) {
      ConsumerKeepsProducers(s, j, i);
    }
    forall k: nat | k < |t.consumers| ensures ConsumerKnows(t, t.consumers[k], t.index[k]) {
      if k == j { ConsumerKeepsSelf(s, j); } else { ConsumerKeepsOther(s, j, k); }
    }
    SamePool(s, j);
    hide Inv, ConsumerNext, ProducerKnows, ConsumerKnows;
  }

  lemma SamePool(s: State, j: nat)
    requires Shape(s) && ConsumerEnabled(s, j)
    ensures var t := ConsumerNext(s, j); t.producers == s.producers && |t.consumers| == |s.consumers| && Shape(t)
  {
  }

  lemma ConsumerKeepsContents(s: State, j: nat)
    requires Inv(s) && ConsumerEnabled(s, j)
    ensures var t := ConsumerNext(s, j); Shape(t) && Knowledge(t) && Contents(t)
  {
    SamePool(s, j);
    ConsumerKeepsKnowledge(s, j);
    if s.consumers[j].Check? {
      CheckedIsNext(s, j);
    }
    hide Sum, Conserved, Knowledge, Counted;
  }

  /** What a statement of a producer does to its account of items. */
  lemma ProducerOwes(s: State, i: nat)
    requires Shape(s) && ProducerEnabled(s, i)
    ensures var t := ProducerNext(s, i);
      var (p, q) := (s.producers[i], t.producers[i]);
      && t.producers == s.producers[i := q] && t.consumers == s.consumers && t.conscount == s.conscount
      && t.fetchedBy == s.fetchedBy && t.fetched == s.fetched
      && t.storedBy == s.storedBy + (if p.Store? then [i] else [])
      && t.prodcount == (if p.CountPut? then s.prodcount[i := s.prodcount[i] + 1] else s.prodcount)
      && POwes(q) == POwes(p) + One(p.Store?) - One(p.CountPut?)
  {
  }

  lemma ProducerKeepsCounts(s: State, i: nat)
    requires Shape(s) && Counted(s) && ProducerEnabled(s, i) && Shape(ProducerNext(s, i))
    ensures Counted(ProducerNext(s, i))
  {
    ProducerOwes(s, i);
    var t := ProducerNext(s, i);
    hide ProducerNext, POwes, COwes, Times;
    forall k: nat | k < |t.producers| ensures Times(t.storedBy, k) == t.prodcount[k] + POwes(t.producers[k]) {
      assert Times(s.storedBy, k) == s.prodcount[k] + POwes(s.producers[k]);
      TimesOneMore(s.storedBy, i, k);
    }
  }

  lemma ConsumerOwes(s: State, j: nat)
    requires Shape(s) && ConsumerEnabled(s, j)
    ensures var t := ConsumerNext(s, j);
      var (p, q) := (s.consumers[j], t.consumers[j]);
      && t.consumers == s.consumers[j := q] && t.producers == s.producers && t.prodcount == s.prodcount
      && t.storedBy == s.storedBy && |t.fetched| == |s.fetched| + One(p.Check?)
      && t.fetchedBy == s.fetchedBy + (if p.Check? then [j] else [])
      && t.conscount == (if p.CountGet? then s.conscount[j := s.conscount[j] + 1] else s.conscount)
      && COwes(q) == COwes(p) + One(p.Check?) - One(p.CountGet?)
  {
  }

  lemma ConsumerKeepsCounts(s: State, j: nat)
    requires Shape(s) && Counted(s) && ConsumerEnabled(s, j) && Shape(ConsumerNext(s, j))
    ensures Counted(ConsumerNext(s, j))
  {
    ConsumerOwes(s, j);
    var t := ConsumerNext(s, j);
    hide ConsumerNext, POwes, COwes, Times;
    forall k: nat | k < |t.consumers| ensures Times(t.fetchedBy, k) == t.conscount[k] + COwes(t.consumers[k]) {
      assert Times(s.fetchedBy, k) == s.conscount[k] + COwes(s.consumers[k]);
      TimesOneMore(s.fetchedBy, j, k);
    }
  }

  lemma StepInv(s: State, t: State)
    requires Inv(s) && Next(s, t)
    ensures Inv(t) && Measure(t) < Measure(s)
  {
    if i: nat :| ProducerEnabled(s, i) && t == ProducerNext(s, i) {
      ProducerKeepsTokens(s, i);
      ProducerKeepsItems(s, i);
      ProducerWorks(s, i);
      ProducerKeepsContents(s, i);
      ProducerKeepsCounts(s, i);
    } else {
      var j: nat :| ConsumerEnabled(s, j) && t == ConsumerNext(s, j);
      ConsumerKeepsTokens(s, j);
      ConsumerKeepsItems(s, j);
      ConsumerWorks(s, j);
      ConsumerKeepsContents(s, j);
      ConsumerKeepsCounts(s, j);
    }
  }

  lemma MeasureNonneg(s: State)
    requires Inv(s)
    ensures Measure(s) >= 0
  {
    SumNonneg(PRank, s.producers);
    SumNonneg(CRank, s.consumers);
  }

  /** The check is not idle: in any state, reachable or not, it counts an error exactly if
      what is fetched is not the number expected. */
  lemma TheCheckWorks(s: State, j: nat)
    requires Shape(s) && ConsumerEnabled(s, j) && s.consumers[j].Check?
    ensures var t := ConsumerNext(s, j);
      && |t.fetched| == |s.fetched| + 1 && s.errors <= t.errors
      && (t.errors == s.errors <==> t.fetched[|s.fetched|] == s.ngetval)
  {
  }

  // ----- the theorems

  /** Safety in every interleaving: the consumer's check never fires, items are fetched
      once and in order, and the buffer never holds more than NBUFF unread items. */
  lemma EveryInterleavingIsSafe(run: seq<State>)
    requires IsRun(Init, Next, run)
    ensures forall k :: 0 <= k < |run| ==>
      && Inv(run[k])
      && run[k].errors == 0
      && (forall n :: 0 <= n < |run[k].fetched| ==> run[k].fetched[n] == n)
      && run[k].nget <= |run[k].fetched| <= run[k].nget + 1
      && 0 <= run[k].nput - run[k].nget <= NBUFF
  {
    forall s | Init(s) ensures Inv(s) { InitInv(s); }
    forall s, t | Inv(s) && Next(s, t) ensures Inv(t) { StepInv(s, t); }
    Invariance(Init, Next, Inv, run);
    forall k | 0 <= k < |run| ensures
      && run[k].nget <= |run[k].fetched| <= run[k].nget + 1
      && 0 <= run[k].nput - run[k].nget <= NBUFF
    {
      var s := run[k];
      assert Inv(s);
      SumNonneg(PEmpty, s.producers);
      SumNonneg(CEmpty, s.consumers);
      SumNonneg(CFetched, s.consumers);
      if Sum(CFetched, s.consumers) > 0 {
        var j := SumWitness(CFetched, s.consumers);
        ConsumerAlone(s, j);
        SumNonneg(PHolds, s.producers);
        FetchedBelowHolds(s.consumers);
      }
    }
  }

  lemma {:induction false} FetchedBelowHolds(cs: seq<Consumer>)
    ensures Sum(CFetched, cs) <= Sum(CHolds, cs)
  {
    if cs != [] {
      FetchedBelowHolds(cs[1..]);
    }
  }

  /** No run is longer than a bound fixed by the number of items and threads. */
  lemma EveryRunIsFinite(run: seq<State>)
    requires IsRun(Init, Next, run)
    ensures |run| <= 20 * Natural(run[0].nitems) + 9 * (|run[0].producers| + |run[0].consumers|) + 1
  {
    forall s | Init(s) ensures Inv(s) { InitInv(s); }
    forall s, t | Inv(s) && Next(s, t) ensures Inv(t) && Measure(t) < Measure(s) { StepInv(s, t); }
    forall s | Inv(s) ensures Measure(s) >= 0 { MeasureNonneg(s); }
    Finiteness(Init, Next, Inv, Measure, run);
    SumConstant(PRank, run[0].producers, 9);
    SumConstant(CRank, run[0].consumers, 9);
  }

  /** When the pool of threads can finish: someone on both sides, or nobody to consume
      and few enough items that the producers find a free slot to leave through. */
  predicate Balanced(nitems: int, producers: nat, consumers: nat) {
    || (producers > 0 && consumers > 0)
    || (consumers == 0 && (producers == 0 || nitems < NBUFF))
  }

  /** A blocked state has no thread inside a critical section or between semaphores. */
  lemma BlockedPoints(s: State)
    requires Inv(s) && Terminal(s)
    ensures forall i :: 0 <= i < |s.producers| ==>
      s.producers[i].PutDone? || (s.producers[i].WaitEmpty? && s.nempty == 0)
    ensures forall j :: 0 <= j < |s.consumers| ==>
      s.consumers[j].GetDone? || (s.consumers[j].WaitStored? && s.nstored == 0)
    ensures s.mutex == 1 && s.nempty + s.nput - s.nget == NBUFF
    ensures s.nstored == s.nput - s.nget + Sum(PExtra, s.producers)
  {
    forall i | 0 <= i < |s.producers|
      ensures s.producers[i].PutDone? || s.producers[i].WaitEmpty? || s.producers[i].LockPut?
    {
      assert !ProducerEnabled(s, i);
    }
    forall j | 0 <= j < |s.consumers|
      ensures s.consumers[j].GetDone? || s.consumers[j].WaitStored? || s.consumers[j].LockGet?
    {
      assert !ConsumerEnabled(s, j);
    }
    SumConstant(PHolds, s.producers, 0);
    SumConstant(CHolds, s.consumers, 0);
    forall i | 0 <= i < |s.producers|
      ensures s.producers[i].PutDone? || (s.producers[i].WaitEmpty? && s.nempty == 0)
    {
      assert !ProducerEnabled(s, i);
    }
    forall j | 0 <= j < |s.consumers|
      ensures s.consumers[j].GetDone? || (s.consumers[j].WaitStored? && s.nstored == 0)
    {
      assert !ConsumerEnabled(s, j);
    }
    SumConstant(PEmpty, s.producers, 0);
    SumConstant(CEmpty, s.consumers, 0);
    SumConstant(PStored, s.producers, 0);
    SumConstant(CStored, s.consumers, 0);
  }

  /** Deadlock freedom, with its exact condition: a state in which no thread can move
      has every thread returned if and only if the pool is balanced. */
  lemma StuckMeansFinished(s: State)
    requires Inv(s) && Terminal(s)
    ensures AllReturned(s) <==> Balanced(s.nitems, |s.producers|, |s.consumers|)
  {
    BlockedPoints(s);
    if |s.consumers| > 0 { assert ConsumerKnows(s, s.consumers[0], s.index[0]); }
    if |s.producers| > 0 { assert ProducerKnows(s, s.producers[0]); }
    if Balanced(s.nitems, |s.producers|, |s.consumers|) {
      SumNonneg(PExtra, s.producers);
      assert forall i :: 0 <= i < |s.producers| ==> !s.producers[i].WaitEmpty?;
      SumConstant(PExtra, s.producers, 1);
    }
  }

  /** What every completed run leaves behind. */
  lemma FinalState(s: State)
    requires Inv(s) && AllReturned(s)
    requires |s.producers| > 0 && |s.consumers| > 0
    ensures s.nput == s.nget == Natural(s.nitems)
    ensures Sum(Id, s.prodcount) == Sum(Id, s.conscount) == Natural(s.nitems)
    ensures s.mutex == 1 && s.nempty == NBUFF && s.nstored == |s.producers|
    ensures s.fetched == seq(Natural(s.nitems), n => n)
    ensures forall i: nat :: i < |s.producers| ==> i < |s.prodcount| && s.prodcount[i] == Times(s.storedBy, i)
    ensures forall j: nat :: j < |s.consumers| ==> j < |s.conscount| && s.conscount[j] == Times(s.fetchedBy, j)
  {
    assert ProducerKnows(s, s.producers[0]);
    assert ConsumerKnows(s, s.consumers[0], s.index[0]);
    SumConstant(PHolds, s.producers, 0);
    SumConstant(PEmpty, s.producers, 0);
    SumConstant(PStored, s.producers, 0);
    SumConstant(PExtra, s.producers, 1);
    SumConstant(PUncounted, s.producers, 0);
    SumConstant(CHolds, s.consumers, 0);
    SumConstant(CEmpty, s.consumers, 0);
    SumConstant(CStored, s.consumers, 0);
    SumConstant(CUncounted, s.consumers, 0);
    SumConstant(CFetched, s.consumers, 0);
  }

  /** Steps neither create threads nor change the number of items asked for. */
  lemma {:induction false} ConfigurationIsFixed(run: seq<State>)
    requires IsRun(Init, Next, run)
    ensures var s := Last(run);
      && s.nitems == run[0].nitems
      && |s.producers| == |run[0].producers| && |s.consumers| == |run[0].consumers|
  {
    if |run| > 1 {
      ConfigurationIsFixed(run[..|run| - 1]);
      assert Next(run[|run| - 2], Last(run));
    }
  }

  /** Every maximal run of a balanced pool completes, that of any other pool never does;
      with a producer and a consumer it leaves exactly the counts and semaphore values
      the program is meant to leave. */
  lemma EveryMaximalRunCompletes(run: seq<State>)
    requires IsRun(Init, Next, run) && Terminal(Last(run))
    ensures var s := Last(run);
      && (AllReturned(s) <==> Balanced(run[0].nitems, |run[0].producers|, |run[0].consumers|))
      && (|s.producers| > 0 && |s.consumers| > 0 ==>
            && s.nput == s.nget == Natural(s.nitems)
            && Sum(Id, s.prodcount) == Sum(Id, s.conscount) == Natural(s.nitems)
            && s.mutex == 1 && s.nempty == NBUFF && s.nstored == |s.producers|
            && s.fetched == seq(Natural(s.nitems), n => n)
            && (forall i: nat :: i < |s.producers| ==> i < |s.prodcount| && s.prodcount[i] == Times(s.storedBy, i))
            && (forall j: nat :: j < |s.consumers| ==> j < |s.conscount| && s.conscount[j] == Times(s.fetchedBy, j)))
  {
    EveryInterleavingIsSafe(run);
    ConfigurationIsFixed(run);
    var s := Last(run);
    StuckMeansFinished(s);
    if |s.producers| > 0 && |s.consumers| > 0 {
      FinalState(s);
    }
  }

  // ----- the program

  /** The `shared` structure together with the threads working on it. */
  class Shared {
    const nitems: int
    const buff: array<int>
    var nput: int
    var nputval: int
    var nget: int
    var ngetval: int
    var mutex: int
    var nempty: int
    var nstored: int
    var producers: seq<Producer>
    var prodcount: seq<int>
    var consumers: seq<Consumer>
    var index: seq<int>
    var conscount: seq<int>
    var fetched: seq<int>
    var errors: int
    var storedBy: seq<nat>
    var fetchedBy: seq<nat>

    function View(): State
      reads this, buff
    {
      State(nitems, buff[..], nput, nputval, nget, ngetval, mutex, nempty, nstored,
            producers, prodcount, consumers, index, conscount, fetched, errors, storedBy, fetchedBy)
    }

    /** The initialisation and thread creation of `main`. */
    constructor (nitems: int, nproducers: nat, nconsumers: nat)
      ensures Init(View()) && fresh(buff)
      ensures this.nitems == nitems && |producers| == nproducers && |consumers| == nconsumers
    {
      this.nitems := nitems;
      buff := new int[NBUFF](_ => 0);
      nput, nputval, nget, ngetval := 0, 0, 0, 0;
      mutex, nempty, nstored := 1, NBUFF, 0;
      producers, prodcount := seq(nproducers, _ => WaitEmpty), seq(nproducers, _ => 0);
      consumers, conscount := seq(nconsumers, _ => WaitStored), seq(nconsumers, _ => 0);
      index := seq(nconsumers, _ => 0);
      fetched, errors := [], 0;
      storedBy, fetchedBy := [], [];
    }

    /** One statement of `produce`. */
    method Produce(i: nat)
      requires Shape(View()) && ProducerEnabled(View(), i)
      modifies this, buff
      ensures View() == ProducerNext(old(View()), i)
    {
      if producers[i].Store? || POwes(producers[i]) == 1 {
        Put(i);
        return;
      }
      match producers[i]
      case WaitEmpty =>
        nempty := nempty - 1;
        producers := producers[i := LockPut];
      case LockPut =>
        mutex := mutex - 1;
        producers := producers[i := TestPut];
      case TestPut =>
        if nput >= nitems {
          producers := producers[i := PostExtra];
        } else {
          producers := producers[i := Store];
        }
      case PostExtra =>
        nstored := nstored + 1;
        producers := producers[i := ReturnEmpty];
      case ReturnEmpty =>
        nempty := nempty + 1;
        producers := producers[i := UnlockExit];
      case UnlockExit =>
        mutex := mutex + 1;
        producers := producers[i := PutDone];
    }

    /** One statement of `produce` for an item, from storing to counting it. */
    method Put(i: nat)
      requires Shape(View()) && ProducerEnabled(View(), i)
      requires producers[i].Store? || POwes(producers[i]) == 1
      modifies this, buff
      ensures View() == ProducerNext(old(View()), i)
    {
      match producers[i]
      case Store =>
        buff[nput % NBUFF] := nputval;
        storedBy := storedBy + [i];
        producers := producers[i := IncPut];
      case IncPut =>
        nput := nput + 1;
        producers := producers[i := IncPutVal];
      case IncPutVal =>
        nputval := nputval + 1;
        producers := producers[i := UnlockPut];
      case UnlockPut =>
        mutex := mutex + 1;
        producers := producers[i := PostStored];
      case PostStored =>
        nstored := nstored + 1;
        producers := producers[i := CountPut];
      case CountPut =>
        prodcount := prodcount[i := prodcount[i] + 1];
        producers := producers[i := WaitEmpty];
    }

    /** One statement of `consume`. */
    method Consume(j: nat)
      requires Shape(View()) && ConsumerEnabled(View(), j)
      modifies this
      ensures View() == ConsumerNext(old(View()), j)
    {
      if consumers[j].Index? || consumers[j].Check? {
        Look(j);
        return;
      } else if COwes(consumers[j]) == 1 {
        Take(j);
        return;
      }
      match consumers[j]
      case WaitStored =>
        nstored := nstored - 1;
        consumers := consumers[j := LockGet];
      case LockGet =>
        mutex := mutex - 1;
        consumers := consumers[j := TestGet];
      case TestGet =>
        if nget >= nitems {
          consumers := consumers[j := PassStored];
        } else {
          consumers := consumers[j := Index];
        }
      case PassStored =>
        nstored := nstored + 1;
        consumers := consumers[j := UnlockQuit];
      case UnlockQuit =>
        mutex := mutex + 1;
        consumers := consumers[j := GetDone];
    }

    /** `consume` finds the slot of the next item, or checks and takes what is in it. */
    method Look(j: nat)
      requires Shape(View()) && ConsumerEnabled(View(), j)
      requires consumers[j].Index? || consumers[j].Check?
      modifies this
      ensures View() == ConsumerNext(old(View()), j)
    {
      match consumers[j]
      case Index =>
        index := index[j := nget % NBUFF];
        consumers := consumers[j := Check];
      case Check =>
        if buff[index[j]] != ngetval {
          errors := errors + 1;
        }
        fetched := fetched + [buff[index[j]]];
        fetchedBy := fetchedBy + [j];
        consumers := consumers[j := IncGet];
    }

    /** One statement of `consume` from there to counting the item. */
    method Take(j: nat)
      requires Shape(View()) && ConsumerEnabled(View(), j) && COwes(consumers[j]) == 1
      modifies this
      ensures View() == ConsumerNext(old(View()), j)
    {
      match consumers[j]
      case IncGet =>
        nget := nget + 1;
        consumers := consumers[j := IncGetVal];
      case IncGetVal =>
        ngetval := ngetval + 1;
        consumers := consumers[j := UnlockGet];
      case UnlockGet =>
        mutex := mutex + 1;
        consumers := consumers[j := PostEmpty];
      case PostEmpty =>
        nempty := nempty + 1;
        consumers := consumers[j := CountGet];
      case CountGet =>
        conscount := conscount[j := conscount[j] + 1];
        consumers := consumers[j := WaitStored];
    }

    /** Runs the threads under an arbitrary scheduler until none can move. */
    method Run()
      requires Init(View())
      modifies this, buff
      ensures Inv(View()) && Terminal(View())
      ensures |producers| == old(|producers|) && |consumers| == old(|consumers|)
      ensures AllReturned(View()) <==> Balanced(nitems, |producers|, |consumers|)
      ensures |producers| > 0 && |consumers| > 0 ==>
        && errors == 0 && fetched == seq(Natural(nitems), n => n)
        && nstored == |producers| && nempty == NBUFF && mutex == 1
    {
      hide Sum;
      InitInv(View());
      while true
        invariant Inv(View())
        invariant |producers| == old(|producers|) && |consumers| == old(|consumers|)
        decreases Measure(View())
      {
        MeasureNonneg(View());
        ghost var before := View();
        if {
          case i: nat :| i < |producers| && ProducerEnabled(View(), i) =>
            Produce(i);
            assert Next(before, View());
            StepInv(before, View());
            MeasureNonneg(View());
          case j: nat :| j < |consumers| && ConsumerEnabled(View(), j) =>
            Consume(j);
            assert Next(before, View());
            StepInv(before, View());
            MeasureNonneg(View());
          case (forall i: nat :: i < |producers| ==> !ProducerEnabled(View(), i)) &&
               (forall j: nat :: j < |consumers| ==> !ConsumerEnabled(View(), j)) =>
            break;
        }
      }
      StuckMeansFinished(View());
      if |producers| > 0 && |consumers| > 0 {
        FinalState(View());
      }
    }
  }

  /** `main`: the three counts come from the command line. */
  method ProdCons(nitems: int, nproducers: nat, nconsumers: nat) returns (fetched: seq<int>, finished: bool)
    ensures finished <==> Balanced(nitems, nproducers, nconsumers)
    ensures nproducers > 0 && nconsumers > 0 ==> fetched == seq(if nitems < 0 then 0 else nitems, n => n)
  {
    var shared := new Shared(nitems, nproducers, nconsumers);
    shared.Run();
    fetched, finished := shared.fetched, AllReturned(shared.View());
  }
}
