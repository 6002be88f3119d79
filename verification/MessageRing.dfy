/** pxshm/client2.cpp and server2.cpp: clients put messages into a ring of NMESG slots of
    MESGSIZE bytes in shared memory, a server prints them. A client that finds no empty
    slot counts an overflow instead of waiting; slots are claimed under a mutex but copied
    into after it is released, character by character. */
module MessageRing {
  import opened Logs
  import opened Tally
  import opened Rings
  import opened Runs

  const NMESG: nat := 16
  const MESGSIZE: nat := 256
  const NUL: char := '\0'

  type Message = seq<char>

  /** What `snprintf` leaves in `mesg`: some text that fits with its NUL. */
  predicate ValidMessage(m: Message) { 0 < |m| < MESGSIZE && NUL !in m }

  datatype Client =
    | LoopTest | TryEmpty
    | LockOver | LoadOver | StoreOver(n: int) | UnlockOver
    | LockRing | GetOffset | IncPut(off: nat) | UnlockRing(off: nat)
    | Copy(off: nat, k: nat) | PostStored(off: nat) | Exited

  datatype Server =
    | WaitStored | LockPrint | LoadOffset | Print(off: nat, text: Message) | IncIndex | UnlockPrint
    | PostEmpty | LockCount | ReadCount | UnlockCount | Report

  /** The shared structure, the clients with the messages they still have to send, and the
      server. `reports` are the overflow counts the server has reported. `sent` logs the
      messages clients have tried to send and whether a slot was claimed for them, `accepted`
      the messages of claimed slots, `attempts` and `granted` count
      calls and successes of `sem_trywait`, `drained` slots the server has passed. */
  datatype State = State(
    mutex: int, nempty: int, nstored: int, overflowMutex: int,
    nput: int, noverflow: int, msgoff: seq<nat>, data: seq<char>,
    clients: seq<Client>, todo: seq<seq<Message>>,
    server: Server, index: int, temp: int, last: int, printed: seq<Message>,
    accepted: seq<Message>, attempts: int, granted: int, drained: nat,
    sent: Log<(Message, bool)>, reports: seq<int>)

  /** The ring as the server's initialisation leaves it, and clients about to start. */
  ghost predicate Init(s: State) {
    && s.mutex == 1 && s.nempty == NMESG && s.nstored == 0 && s.overflowMutex == 1
    && s.nput == s.noverflow == 0
    && s.msgoff == seq(NMESG, i requires 0 <= i => i * MESGSIZE)
    && s.data == seq(NMESG * MESGSIZE, _ => NUL)
    && s.clients == seq(|s.clients|, _ => LoopTest) && |s.todo| == |s.clients|
    && (forall c :: 0 <= c < |s.todo| ==> forall m :: m in s.todo[c] ==> ValidMessage(m))
    && s.server == WaitStored && s.index == s.temp == s.last == 0 && s.printed == []
    && s.accepted == [] && s.attempts == s.granted == 0 && s.drained == 0 && s.sent == [] && s.reports == []
  }

  predicate AtSlot(off: nat) { off % MESGSIZE == 0 && off + MESGSIZE <= NMESG * MESGSIZE }

  /** The offset a client is working on. */
  predicate ClientInBounds(p: Client, todo: seq<Message>) {
    match p
    case LoopTest => true
    case Exited => todo == []
    case IncPut(off) => todo != [] && AtSlot(off)
    case UnlockRing(off) => todo != [] && AtSlot(off)
    case Copy(off, k) => todo != [] && AtSlot(off) && k <= |todo[0]| < MESGSIZE
    case PostStored(off) => todo != [] && AtSlot(off)
    case _ => todo != []
  }

  /** Sizes and index bounds; every reachable state has them, whatever the clients do, so
      no copy and no print ever leaves its slot. */
  predicate Shape(s: State) {
    && |s.msgoff| == NMESG && |s.data| == NMESG * MESGSIZE && |s.todo| == |s.clients|
    && (forall j :: 0 <= j < NMESG ==> s.msgoff[j] == MESGSIZE * j)
    && 0 <= s.nput < NMESG && 0 <= s.index < NMESG
    && (forall c :: 0 <= c < |s.clients| ==> ClientInBounds(s.clients[c], s.todo[c]))
    && (s.server.Print? ==> AtSlot(s.server.off) && |s.server.text| < MESGSIZE)
  }

  predicate ClientEnabled(s: State, c: nat) {
    && Shape(s)
    && c < |s.clients|
    && match s.clients[c]
       case Exited => false
       case LockOver => s.overflowMutex > 0
       case LockRing => s.mutex > 0
       case _ => true
  }

  predicate ServerEnabled(s: State) {
    && Shape(s)
    && match s.server
       case WaitStored => s.nstored > 0
       case LockPrint => s.mutex > 0
       case LockCount => s.overflowMutex > 0
       case _ => true
  }

  /** One statement of a client, one character of `strcpy`. */
  function ClientStep(s: State, c: nat): State
    requires ClientEnabled(s, c)
  {
    match s.clients[c]
    case LoopTest => s.(clients := s.clients[c := if s.todo[c] == [] then Exited else TryEmpty])
    case TryEmpty =>
      if s.nempty > 0 then
        s.(clients := s.clients[c := LockRing], nempty := s.nempty - 1,
           attempts := s.attempts + 1, granted := s.granted + 1)
      else s.(clients := s.clients[c := LockOver], attempts := s.attempts + 1,
              sent := s.sent + [(c, (s.todo[c][0], false))])
    case LockOver => s.(clients := s.clients[c := LoadOver], overflowMutex := s.overflowMutex - 1)
    case LoadOver => s.(clients := s.clients[c := StoreOver(s.noverflow)])
    case StoreOver(n) => s.(clients := s.clients[c := UnlockOver], noverflow := n + 1)
    case UnlockOver => s.(clients := s.clients[c := LoopTest], overflowMutex := s.overflowMutex + 1,
                          todo := s.todo[c := s.todo[c][1..]])
    case LockRing => s.(clients := s.clients[c := GetOffset], mutex := s.mutex - 1)
    case GetOffset => s.(clients := s.clients[c := IncPut(s.msgoff[s.nput])])
    case IncPut(off) => s.(clients := s.clients[c := UnlockRing(off)], nput := Advance(s.nput, NMESG),
                           accepted := s.accepted + [s.todo[c][0]], sent := s.sent + [(c, (s.todo[c][0], true))])
    case UnlockRing(off) => s.(clients := s.clients[c := Copy(off, 0)], mutex := s.mutex + 1)
    case Copy(off, k) =>
      if k < |s.todo[c][0]| then
        s.(clients := s.clients[c := Copy(off, k + 1)], data := s.data[off + k := s.todo[c][0][k]])
      else s.(clients := s.clients[c := PostStored(off)], data := s.data[off + k := NUL])
    case PostStored(_) => s.(clients := s.clients[c := LoopTest], nstored := s.nstored + 1,
                             todo := s.todo[c := s.todo[c][1..]])
    case Exited => s
  }

  /** One statement of the server, one character of `printf`. */
  function ServerStep(s: State): State
    requires ServerEnabled(s)
  {
    match s.server
    case WaitStored => s.(server := LockPrint, nstored := s.nstored - 1)
    case LockPrint => s.(server := LoadOffset, mutex := s.mutex - 1)
    case LoadOffset => s.(server := Print(s.msgoff[s.index], []))
    case Print(off, text) =>
      if s.data[off + |text|] == NUL then s.(server := IncIndex, printed := s.printed + [text])
      else s.(server := Print(off, text + [s.data[off + |text|]]))
    case IncIndex => s.(server := UnlockPrint, index := Advance(s.index, NMESG), drained := s.drained + 1)
    case UnlockPrint => s.(server := PostEmpty, mutex := s.mutex + 1)
    case PostEmpty => s.(server := LockCount, nempty := s.nempty + 1)
    case LockCount => s.(server := ReadCount, overflowMutex := s.overflowMutex - 1)
    case ReadCount => s.(server := UnlockCount, temp := s.noverflow)
    case UnlockCount => s.(server := Report, overflowMutex := s.overflowMutex + 1)
    case Report => s.(server := WaitStored, last := s.temp,
                      reports := if s.temp != s.last then s.reports + [s.temp] else s.reports)
  }

  ghost predicate Next(s: State, t: State) {
    || (exists c: nat :: ClientEnabled(s, c) && t == ClientStep(s, c))
    || (ServerEnabled(s) && t == ServerStep(s))
  }

  // ----- conservation, for any number of clients

  function CHolds(p: Client): int { One(p.GetOffset? || p.IncPut? || p.UnlockRing?) }
  function CHoldsOver(p: Client): int { One(p.LoadOver? || p.StoreOver? || p.UnlockOver?) }
  /** Has an `nempty` token but no slot yet. */
  function CEmpty(p: Client): int { One(p.LockRing? || p.GetOffset? || p.IncPut?) }
  /** Has a slot that is not yet announced. */
  function CSlot(p: Client): int { One(p.UnlockRing? || p.Copy? || p.PostStored?) }
  /** Has been refused but not yet counted. */
  function CRefused(p: Client): int { One(p.LockOver? || p.LoadOver? || p.StoreOver?) }

  function SHolds(p: Server): int { One(p.LoadOffset? || p.Print? || p.IncIndex? || p.UnlockPrint?) }
  function SHoldsOver(p: Server): int { One(p.ReadCount? || p.UnlockCount?) }
  function SStored(p: Server): int { One(p.LockPrint? || p.LoadOffset? || p.Print? || p.IncIndex?) }
  function SEmpty(p: Server): int { One(p.UnlockPrint? || p.PostEmpty?) }

  ghost predicate RingConserved(s: State) {
    && s.mutex >= 0 && s.nempty >= 0 && s.nstored >= 0
    && s.mutex + Sum(CHolds, s.clients) + SHolds(s.server) == 1
    && s.nempty + Sum(CEmpty, s.clients) + |s.accepted| - s.drained + SEmpty(s.server) == NMESG
    && s.nstored + Sum(CSlot, s.clients) + SStored(s.server) == |s.accepted| - s.drained
    && s.nput == |s.accepted| % NMESG && s.index == s.drained % NMESG
    && |s.printed| == s.drained + One(s.server.IncIndex?)
  }

  ghost predicate SendsConserved(s: State) {
    && s.overflowMutex >= 0
    && s.overflowMutex + Sum(CHoldsOver, s.clients) + SHoldsOver(s.server) == 1
    && s.attempts == s.granted + s.noverflow + Sum(CRefused, s.clients)
    && s.granted == |s.accepted| + Sum(CEmpty, s.clients)
    && (forall c :: 0 <= c < |s.clients| ==> s.clients[c].StoreOver? ==> s.clients[c].n == s.noverflow)
  }

  /** The last character of every slot stays NUL, so a print stops inside its slot even if it
      catches a slot in the middle of a copy. */
  ghost predicate Fenced(s: State)
    requires |s.data| == NMESG * MESGSIZE
  {
    && (forall i :: 0 <= i < |s.data| && i % MESGSIZE == MESGSIZE - 1 ==> s.data[i] == NUL)
    && (forall c :: 0 <= c < |s.todo| ==> forall i :: 0 <= i < |s.todo[c]| ==> ValidMessage(s.todo[c][i]))
    && (s.server.Print? ==> forall i :: 0 <= i < |s.server.text| ==> s.server.text[i] != NUL)
  }

  ghost predicate Inv(s: State) {
    Shape(s) && RingConserved(s) && SendsConserved(s) && Fenced(s)
  }

  lemma InitInv(s: State)
    requires Init(s)
    ensures Inv(s)
  {
    SumConstant(CHolds, s.clients, 0);
    SumConstant(CHoldsOver, s.clients, 0);
    SumConstant(CEmpty, s.clients, 0);
    SumConstant(CSlot, s.clients, 0);
    SumConstant(CRefused, s.clients, 0);
  }

  lemma ClientKeepsRing(s: State, c: nat)
    requires Inv(s) && ClientEnabled(s, c)
    ensures RingConserved(ClientStep(s, c))
  {
    hide Sum, Advance, Fenced, SendsConserved;
    var t := ClientStep(s, c);
    var p := t.clients[c];
    SumUpdate(CHolds, s.clients, c, p);
    SumUpdate(CEmpty, s.clients, c, p);
    SumUpdate(CSlot, s.clients, c, p);
    AdvanceIsCircular(|s.accepted|, NMESG);
  }

  /** While one client updates the overflow counter no other does. */
  lemma CounterIsAlone(s: State, c: nat, d: nat)
    requires Inv(s) && c < |s.clients| && d < |s.clients| && c != d
    requires CHoldsOver(s.clients[c]) == 1
    ensures CHoldsOver(s.clients[d]) == 0 && SHoldsOver(s.server) == 0
  {
    SumCovers(CHoldsOver, s.clients, c);
    if c < d { SumCoversTwo(CHoldsOver, s.clients, c, d); } else { SumCoversTwo(CHoldsOver, s.clients, d, c); }
  }

  lemma ClientKeepsSends(s: State, c: nat)
    requires Inv(s) && ClientEnabled(s, c)
    ensures SendsConserved(ClientStep(s, c))
  {
    hide Sum, Advance, Fenced, RingConserved;
    var t := ClientStep(s, c);
    var p := t.clients[c];
    SumUpdate(CHoldsOver, s.clients, c, p);
    SumUpdate(CRefused, s.clients, c, p);
    SumUpdate(CEmpty, s.clients, c, p);
    forall d: nat | d < |t.clients| && t.clients[d].StoreOver? ensures t.clients[d].n == t.noverflow {
      if d != c && s.clients[c].StoreOver? {
        CounterIsAlone(s, c, d);
      }
    }
  }

  lemma ClientKeepsShape(s: State, c: nat)
    requires Inv(s) && ClientEnabled(s, c)
    ensures Shape(ClientStep(s, c)) && Fenced(ClientStep(s, c))
  {
    hide Sum, SendsConserved, RingConserved;
    var t := ClientStep(s, c);
    if s.todo[c] != [] {
      assert ValidMessage(s.todo[c][0]);
    }
    forall d: nat | d < |t.clients| ensures ClientInBounds(t.clients[d], t.todo[d]) {
      assert ClientInBounds(s.clients[d], s.todo[d]);
    }
  }

  lemma ServerKeepsInv(s: State)
    requires Inv(s) && ServerEnabled(s)
    ensures Inv(ServerStep(s))
  {
    hide Sum, Advance;
    AdvanceIsCircular(s.drained, NMESG);
    var t := ServerStep(s);
    assert RingConserved(t);
    assert SendsConserved(t);
  }

  lemma StepInv(s: State, t: State)
    requires Inv(s) && Next(s, t)
    ensures Inv(t)
  {
    if c: nat :| ClientEnabled(s, c) && t == ClientStep(s, c) {
      ClientKeepsRing(s, c);
      ClientKeepsSends(s, c);
      ClientKeepsShape(s, c);
    } else {
      ServerKeepsInv(s);
    }
  }

  lemma EveryRunIsInvariant(run: seq<State>)
    requires IsRun(Init, Next, run)
    ensures forall k :: 0 <= k < |run| ==> Inv(run[k])
  {
    forall s | Init(s) ensures Inv(s) { InitInv(s); }
    forall s, t | Inv(s) && Next(s, t) ensures Inv(t) { StepInv(s, t); }
    Invariance(Init, Next, Inv, run);
  }

  /** With any number of clients: slot tokens, slots in use and slots under way add up to
      NMESG, and attempts are accepted messages plus counted overflows plus sends that are
      not settled yet. */
  lemma RingConserves(run: seq<State>, k: nat)
    requires IsRun(Init, Next, run) && k < |run|
    ensures var s := run[k];
      && s.nempty + s.nstored + Sum(CEmpty, s.clients) + Sum(CSlot, s.clients) + SStored(s.server) + SEmpty(s.server)
         == NMESG
      && s.attempts == |s.accepted| + s.noverflow + Sum(CEmpty, s.clients) + Sum(CRefused, s.clients)
      && s.drained <= |s.accepted| <= s.drained + NMESG
  {
    EveryRunIsInvariant(run);
    var s := run[k];
    assert Inv(s);
    SumNonneg(CEmpty, s.clients);
    SumNonneg(CSlot, s.clients);
  }

  /** With any number of clients: every character is copied into, and read from, the slot
      the thread has claimed, and nowhere else. */
  lemma CopiesStayInTheirSlots(run: seq<State>, k: nat)
    requires IsRun(Init, Next, run) && k < |run|
    ensures forall c :: 0 <= c < |run[k].clients| && run[k].clients[c].Copy? ==>
      var p := run[k].clients[c]; AtSlot(p.off) && p.k < MESGSIZE
    ensures run[k].server.Print? ==> AtSlot(run[k].server.off) && |run[k].server.text| < MESGSIZE
  {
    EveryRunIsInvariant(run);
    assert Inv(run[k]);
    forall c | 0 <= c < |run[k].clients| && run[k].clients[c].Copy?
      ensures var p := run[k].clients[c]; AtSlot(p.off) && p.k < MESGSIZE
    {
      assert ClientInBounds(run[k].clients[c], run[k].todo[c]);
    }
  }

  // ----- order and integrity, with one sending client

  /** Nobody but a has anything to send. */
  ghost predicate OnlySender(s: State, a: nat) {
    && |s.todo| == |s.clients|
    && forall c: nat :: c < |s.clients| && c != a ==>
         s.todo[c] == [] && (s.clients[c].LoopTest? || s.clients[c].Exited?)
  }

  function SlotOf(k: nat): nat { MESGSIZE * (k % NMESG) }

  lemma SlotsDisjoint(k: nat, l: nat)
    requires k < l < k + NMESG
    ensures SlotOf(k) + MESGSIZE <= SlotOf(l) || SlotOf(l) + MESGSIZE <= SlotOf(k)
  {
    SlotsApart(k, l, NMESG);
  }

  /** The characters from `off` are the message and its NUL. */
  ghost predicate Stored(data: seq<char>, off: nat, m: Message) {
    && off + |m| < |data| && |m| < MESGSIZE
    && (forall i :: 0 <= i < |m| ==> data[off + i] == m[i])
    && data[off + |m|] == NUL
  }

  /** Whether the sender has a slot that it has not finished copying into. */
  predicate Unfinished(s: State, a: nat) {
    a < |s.clients| && (s.clients[a].UnlockRing? || s.clients[a].Copy?)
  }

  /** Slots claimed and completely copied. */
  function Complete(s: State, a: nat): int { |s.accepted| - One(Unfinished(s, a)) }

  ghost predicate SlotsStored(s: State, a: nat) {
    forall k: nat :: s.drained <= k < Complete(s, a) && k < |s.accepted| ==> Stored(s.data, SlotOf(k), s.accepted[k])
  }

  ghost predicate SenderKnows(s: State, a: nat) {
    a < |s.clients| ==>
      match s.clients[a]
      case IncPut(off) => off == SlotOf(|s.accepted|)
      case UnlockRing(off) => |s.accepted| > 0 && off == SlotOf(|s.accepted| - 1) && a < |s.todo| && s.todo[a] != [] &&
        s.accepted[|s.accepted| - 1] == s.todo[a][0]
      case Copy(off, k) =>
        && |s.accepted| > 0 && off == SlotOf(|s.accepted| - 1) && a < |s.todo| && s.todo[a] != []
        && s.accepted[|s.accepted| - 1] == s.todo[a][0]
        && k <= |s.todo[a][0]| && off + k < |s.data|
        && (forall i :: 0 <= i < k ==> s.data[off + i] == s.todo[a][0][i])
      case _ => true
  }

  ghost predicate ServerKnows(s: State) {
    && s.drained + One(s.server.IncIndex?) <= |s.accepted|
    && s.printed == s.accepted[..s.drained + One(s.server.IncIndex?)]
    && (s.server.Print? ==>
          s.drained < |s.accepted| && s.server.off == SlotOf(s.drained) && s.server.text <= s.accepted[s.drained])
  }

  ghost predicate Faithful(s: State, a: nat) {
    && OnlySender(s, a) && SlotsStored(s, a) && SenderKnows(s, a) && ServerKnows(s)
    && forall k :: 0 <= k < |s.accepted| ==> ValidMessage(s.accepted[k])
  }

  /** Slots in use never wrap onto themselves, and while the server is at a slot the copy
      into it is complete. */
  lemma InUse(s: State, a: nat)
    requires Inv(s)
    ensures s.drained <= |s.accepted| <= s.drained + NMESG
    ensures a < |s.clients| && s.clients[a].IncPut? ==> |s.accepted| < s.drained + NMESG
    ensures SStored(s.server) == 1 ==> s.drained < Complete(s, a)
    ensures s.drained <= Complete(s, a)
  {
    SumNonneg(CEmpty, s.clients);
    SumNonneg(CSlot, s.clients);
    if a < |s.clients| {
      SumCovers(CSlot, s.clients, a);
      SumCovers(CEmpty, s.clients, a);
    }
  }

  lemma StoredElsewhere(data: seq<char>, off: nat, m: Message, i: nat, c: char)
    requires Stored(data, off, m) && i < |data| && !(off <= i < off + MESGSIZE)
    ensures Stored(data[i := c], off, m)
  {
  }

  lemma StoredNow(data: seq<char>, off: nat, m: Message)
    requires |m| < MESGSIZE && off + |m| < |data| && forall i :: 0 <= i < |m| ==> data[off + i] == m[i]
    ensures Stored(data[off + |m| := NUL], off, m)
  {
  }

  /** Copying writes into the newest slot only, and completes it in the end. */
  lemma CopyKeepsSlots(s: State, a: nat)
    requires Inv(s) && Faithful(s, a) && ClientEnabled(s, a) && s.clients[a].Copy?
    ensures SlotsStored(ClientStep(s, a), a)
  {
    InUse(s, a);
    var t := ClientStep(s, a);
    var (last, off, k) := (|s.accepted| - 1, s.clients[a].off, s.clients[a].k);
    var m := s.todo[a][0];
    assert ValidMessage(s.accepted[last]);
    assert off + MESGSIZE <= |s.data| && off == SlotOf(last);
    if k == |m| {
      StoredNow(s.data, off, m);
    }
    hide Sum, Inv, Stored, ServerKnows, Advance;
    forall j: nat | t.drained <= j < Complete(t, a) && j < |t.accepted|
      ensures Stored(t.data, SlotOf(j), t.accepted[j])
    {
      if j < last {
        assert Stored(s.data, SlotOf(j), s.accepted[j]);
        SlotsDisjoint(j, last);
        StoredElsewhere(s.data, SlotOf(j), s.accepted[j], off + k, if k < |m| then m[k] else NUL);
      }
    }
  }

  lemma SenderKeepsSlots(s: State, a: nat)
    requires Inv(s) && Faithful(s, a) && ClientEnabled(s, a)
    ensures SlotsStored(ClientStep(s, a), a)
  {
    InUse(s, a);
    var t := ClientStep(s, a);
    if s.clients[a].Copy? {
      CopyKeepsSlots(s, a);
    } else {
      hide Sum, Inv, ServerKnows, Advance, Stored;
      forall k: nat | t.drained <= k < Complete(t, a) && k < |t.accepted|
        ensures Stored(t.data, SlotOf(k), t.accepted[k])
      {
        assert Stored(s.data, SlotOf(k), s.accepted[k]);
      }
    }
  }

  lemma SenderKeepsKnowledge(s: State, a: nat)
    requires Inv(s) && Faithful(s, a) && ClientEnabled(s, a)
    ensures SenderKnows(ClientStep(s, a), a)
  {
    hide Sum, SendsConserved, ServerKnows, SlotsStored, Advance;
    assert ClientInBounds(s.clients[a], s.todo[a]);
    if s.todo[a] != [] {
      assert ValidMessage(s.todo[a][0]);
    }
  }

  /** What a sender does to the logs: at most one valid message is accepted. */
  lemma SenderKeepsLogs(s: State, a: nat)
    requires Inv(s) && Faithful(s, a) && ClientEnabled(s, a)
    ensures var t := ClientStep(s, a);
      && OnlySender(t, a) && ServerKnows(t)
      && forall k :: 0 <= k < |t.accepted| ==> ValidMessage(t.accepted[k])
  {
    hide Sum, SendsConserved, RingConserved, SlotsStored, SenderKnows, Advance;
    var t := ClientStep(s, a);
    if s.clients[a].IncPut? {
      assert ValidMessage(s.todo[a][0]);
    }
    assert s.accepted <= t.accepted;
  }

  lemma SenderKeepsFaith(s: State, a: nat)
    requires Inv(s) && Faithful(s, a) && ClientEnabled(s, a)
    ensures Faithful(ClientStep(s, a), a)
  {
    SenderKeepsSlots(s, a);
    SenderKeepsKnowledge(s, a);
    SenderKeepsLogs(s, a);
    hide ClientStep, Inv, OnlySender, ServerKnows, SlotsStored, SenderKnows;
  }

  lemma OtherKeepsFaith(s: State, a: nat, c: nat)
    requires Inv(s) && Faithful(s, a) && ClientEnabled(s, c) && c != a
    ensures Faithful(ClientStep(s, c), a)
  {
    hide Sum, SendsConserved, RingConserved;
    assert s.todo[c] == [];
  }

  lemma ServerKeepsSlots(s: State, a: nat)
    requires Inv(s) && Faithful(s, a) && ServerEnabled(s)
    ensures SlotsStored(ServerStep(s), a)
  {
    var t := ServerStep(s);
    hide Sum, Inv, SenderKnows, ServerKnows, Advance, Stored;
    forall k: nat | t.drained <= k < Complete(t, a) && k < |t.accepted|
      ensures Stored(t.data, SlotOf(k), t.accepted[k])
    {
      assert Stored(s.data, SlotOf(k), s.accepted[k]);
    }
  }

  lemma ServerKnowsMore(s: State, a: nat)
    requires Inv(s) && Faithful(s, a) && ServerEnabled(s)
    ensures ServerKnows(ServerStep(s))
  {
    InUse(s, a);
    if s.server.Print? {
      var m := s.accepted[s.drained];
      assert Stored(s.data, SlotOf(s.drained), m) && ValidMessage(m);
      PrintIsFaithful(s, m);
      assert s.accepted[..s.drained + 1] == s.accepted[..s.drained] + [m];
    }
    hide Sum, SendsConserved, SenderKnows, SlotsStored, Advance, Stored;
  }

  lemma ServerKeepsFaith(s: State, a: nat)
    requires Inv(s) && Faithful(s, a) && ServerEnabled(s)
    ensures Faithful(ServerStep(s), a)
  {
    ServerKeepsSlots(s, a);
    ServerKnowsMore(s, a);
    hide Inv, SenderKnows, SlotsStored, ServerKnows, Advance;
    SenderKnowsFrame(s, ServerStep(s), a);
  }

  lemma SenderKnowsFrame(s: State, t: State, a: nat)
    requires SenderKnows(s, a) && t.clients == s.clients && t.todo == s.todo
    requires t.data == s.data && t.accepted == s.accepted
    ensures SenderKnows(t, a)
  {
  }

  /** Printing a completely stored message goes through its characters and stops at its end. */
  lemma PrintIsFaithful(s: State, m: Message)
    requires Shape(s) && s.server.Print? && Stored(s.data, s.server.off, m) && NUL !in m && s.server.text <= m
    ensures var t := ServerStep(s);
      if s.server.text == m then t.server.IncIndex? && t.printed == s.printed + [m]
      else t.server.Print? && t.server.off == s.server.off && t.server.text <= m && t.printed == s.printed
  {
    var n := |s.server.text|;
    if n < |m| {
      assert s.data[s.server.off + n] == m[n] && m[n] in m;
      assert s.server.text + [m[n]] == m[..n + 1];
    }
  }

  lemma StepFaithful(s: State, t: State, a: nat)
    requires Inv(s) && Faithful(s, a) && Next(s, t)
    ensures Faithful(t, a)
  {
    hide ClientStep, ServerStep, Inv, Faithful;
    if c: nat :| ClientEnabled(s, c) && t == ClientStep(s, c) {
      if c == a { SenderKeepsFaith(s, a); } else { OtherKeepsFaith(s, a, c); }
    } else {
      ServerKeepsFaith(s, a);
    }
  }

  lemma InitFaithful(s: State, a: nat)
    requires Init(s) && forall c :: 0 <= c < |s.todo| && c != a ==> s.todo[c] == []
    ensures Faithful(s, a)
  {
  }

  /** With one sending client the server prints exactly the accepted messages, in the order
      in which their slots were claimed, each whole. */
  lemma OneSenderIsServedFaithfully(run: seq<State>, a: nat)
    requires IsRun(Init, Next, run)
    requires forall c :: 0 <= c < |run[0].todo| && c != a ==> run[0].todo[c] == []
    ensures forall k :: 0 <= k < |run| ==> run[k].printed <= run[k].accepted
  {
    EveryRunIsInvariant(run);
    InitFaithful(run[0], a);
    hide Init, Next, Inv, OnlySender, SlotsStored, SenderKnows;
    var n := 0;
    while n + 1 < |run|
      invariant 0 <= n < |run|
      invariant forall k :: 0 <= k <= n ==> Faithful(run[k], a)
    {
      assert Next(run[n], run[n + 1]);
      StepFaithful(run[n], run[n + 1], a);
      n := n + 1;
    }
    forall k | 0 <= k < |run| ensures run[k].printed <= run[k].accepted {
      assert Faithful(run[k], a);
    }
  }

  // ----- every run ends, and how

  /** Statements left in a client's current send, and in the server's current round. */
  function CRank(p: Client): int {
    match p
    case LoopTest => 1000 case TryEmpty => 999
    case LockOver => 4 case LoadOver => 3 case StoreOver(_) => 2 case UnlockOver => 1
    case LockRing => 900 case GetOffset => 899 case IncPut(_) => 898 case UnlockRing(_) => 897
    case Copy(_, k) => if k < MESGSIZE then 800 - k else 11
    case PostStored(_) => 10 case Exited => 0
  }

  function SRank(p: Server): int {
    match p
    case WaitStored => 0 case LockPrint => 400 case LoadOffset => 399
    case Print(_, text) => if |text| < MESGSIZE then 390 - |text| else 101
    case IncIndex => 100 case UnlockPrint => 99 case PostEmpty => 98
    case LockCount => 97 case ReadCount => 96 case UnlockCount => 95 case Report => 94
  }

  function Length(messages: seq<Message>): int { |messages| }

  /** Messages still to be sent, slots still to be printed, and the statements under way. */
  function Measure(s: State): int {
    2000 * Sum(Length, s.todo) + Sum(CRank, s.clients) + 500 * s.nstored + SRank(s.server)
  }

  /** In the middle of a send that has been attempted. */
  function CTried(p: Client): int { One(!p.LoopTest? && !p.TryEmpty? && !p.Exited?) }

  /** Every message is attempted once. */
  function Sends(s: State): int { s.attempts + Sum(Length, s.todo) - Sum(CTried, s.clients) }

  /** How one statement of client c changes what is left and what has been attempted. */
  lemma ClientBalance(s: State, c: nat)
    requires Inv(s) && ClientEnabled(s, c)
    ensures var t := ClientStep(s, c);
      var (p, q) := (s.clients[c], t.clients[c]);
      && t.clients == s.clients[c := q] && t.server == s.server
      && t.todo == (if p.UnlockOver? || p.PostStored? then s.todo[c := s.todo[c][1..]] else s.todo)
      && (p.UnlockOver? || p.PostStored? ==> s.todo[c] != [])
      && t.nstored == s.nstored + One(p.PostStored?)
      && CRank(q) - 2000 * One(p.UnlockOver? || p.PostStored?) + 500 * One(p.PostStored?) < CRank(p)
      && t.attempts - CTried(q) - One(p.UnlockOver? || p.PostStored?) == s.attempts - CTried(p)
  {
    assert ClientInBounds(s.clients[c], s.todo[c]);
    hide Inv, Shape, Sum;
  }

  lemma ClientProgresses(s: State, c: nat)
    requires Inv(s) && ClientEnabled(s, c)
    ensures Measure(ClientStep(s, c)) < Measure(s) && Sends(ClientStep(s, c)) == Sends(s)
  {
    ClientBalance(s, c);
    var t := ClientStep(s, c);
    var q := t.clients[c];
    hide Sum, Inv, ClientStep, ClientEnabled, CRank, CTried;
    SumUpdate(CRank, s.clients, c, q);
    SumUpdate(CTried, s.clients, c, q);
    if s.clients[c].UnlockOver? || s.clients[c].PostStored? {
      SumUpdate(Length, s.todo, c, s.todo[c][1..]);
    }
  }

  lemma ServerProgresses(s: State)
    requires Inv(s) && ServerEnabled(s)
    ensures Measure(ServerStep(s)) < Measure(s) && Sends(ServerStep(s)) == Sends(s)
  {
    if s.server.Print? {
      PrintStaysInSlot(s);
    }
    hide Inv, Sum;
  }

  lemma PrintStaysInSlot(s: State)
    requires Inv(s) && s.server.Print?
    ensures |s.server.text| < MESGSIZE - 1 || s.data[s.server.off + |s.server.text|] == NUL
  {
  }

  lemma StepProgresses(s: State, t: State)
    requires Inv(s) && Next(s, t)
    ensures Measure(t) < Measure(s) && Sends(t) == Sends(s)
  {
    hide Measure, Sends, Inv, ClientStep, ServerStep;
    if c: nat :| ClientEnabled(s, c) && t == ClientStep(s, c) {
      ClientProgresses(s, c);
    } else {
      ServerProgresses(s);
    }
  }

  lemma MeasureNonneg(s: State)
    requires Inv(s)
    ensures Measure(s) >= 0
  {
    SumNonneg(Length, s.todo);
    SumNonneg(CRank, s.clients);
  }

  /** No run is longer than a bound fixed by the messages to be sent and the clients: the
      server's loop has no end, but it comes to wait. */
  lemma EveryRunIsFinite(run: seq<State>)
    requires IsRun(Init, Next, run)
    ensures |run| <= 2000 * Sum(Length, run[0].todo) + 1000 * |run[0].clients| + 1
  {
    forall s | Init(s) ensures Inv(s) { InitInv(s); }
    forall s, t | Inv(s) && Next(s, t) ensures Inv(t) && Measure(t) < Measure(s) {
      StepInv(s, t);
      StepProgresses(s, t);
    }
    forall s | Inv(s) ensures Measure(s) >= 0 { MeasureNonneg(s); }
    Finiteness(Init, Next, Inv, Measure, run);
    SumConstant(CRank, run[0].clients, 1000);
  }

  lemma EveryMessageIsTried(run: seq<State>)
    requires IsRun(Init, Next, run)
    ensures Sends(Last(run)) == Sum(Length, run[0].todo)
  {
    EveryRunIsInvariant(run);
    SumConstant(CTried, run[0].clients, 0);
    hide Init, Next, Inv, Sends;
    assert Sends(run[0]) == Sum(Length, run[0].todo) by { SendsAtStart(run[0]); }
    var n := 0;
    while n + 1 < |run|
      invariant 0 <= n < |run| && Sends(run[n]) == Sends(run[0])
    {
      assert Next(run[n], run[n + 1]);
      StepProgresses(run[n], run[n + 1]);
      n := n + 1;
    }
  }

  lemma SendsAtStart(s: State)
    requires Init(s)
    ensures Sends(s) == Sum(Length, s.todo)
  {
    SumConstant(CTried, s.clients, 0);
  }

  /** Nobody can move. */
  ghost predicate Terminal(s: State) {
    (forall c: nat :: !ClientEnabled(s, c)) && !ServerEnabled(s)
  }

  /** Where nobody can move every client has exited, the server waits for a message, the
      ring is empty, and every accepted message has been printed from. */
  lemma TerminalPoints(s: State)
    requires Inv(s) && Terminal(s)
    ensures forall c :: 0 <= c < |s.clients| ==> s.clients[c].Exited?
    ensures s.server == WaitStored && s.nstored == 0 && s.nempty == NMESG && s.mutex == 1 && s.overflowMutex == 1
    ensures s.drained == |s.accepted| == |s.printed|
    ensures s.attempts == |s.accepted| + s.noverflow == Sends(s)
  {
    forall c: nat | c < |s.clients|
      ensures s.clients[c].Exited? || s.clients[c].LockOver? || s.clients[c].LockRing?
    {
      assert !ClientEnabled(s, c);
    }
    SumConstant(CHolds, s.clients, 0);
    SumConstant(CHoldsOver, s.clients, 0);
    forall c: nat | c < |s.clients| ensures s.clients[c].Exited? {
      assert !ClientEnabled(s, c);
    }
    SumConstant(CEmpty, s.clients, 0);
    SumConstant(CSlot, s.clients, 0);
    SumConstant(CRefused, s.clients, 0);
    SumConstant(CTried, s.clients, 0);
    forall c | 0 <= c < |s.todo| ensures Length(s.todo[c]) == 0 {
      assert ClientInBounds(s.clients[c], s.todo[c]);
    }
    SumConstant(Length, s.todo, 0);
  }

  /** Every maximal run ends with all clients gone and the ring empty; every message to be
      sent was either accepted or counted as an overflow, and as many were printed as
      accepted. With one sending client the server has printed exactly the accepted
      messages, in order and whole. */
  lemma EveryMaximalRunServes(run: seq<State>, a: nat)
    requires IsRun(Init, Next, run) && Terminal(Last(run))
    ensures var s := Last(run);
      && (forall c :: 0 <= c < |s.clients| ==> s.clients[c].Exited?)
      && s.nempty == NMESG && s.nstored == 0
      && s.attempts == |s.accepted| + s.noverflow == Sum(Length, run[0].todo)
      && |s.printed| == |s.accepted|
      && ((forall c :: 0 <= c < |run[0].todo| && c != a ==> run[0].todo[c] == []) ==> s.printed == s.accepted)
  {
    EveryRunIsInvariant(run);
    var s := Last(run);
    assert Inv(s);
    TerminalPoints(s);
    EveryMessageIsTried(run);
    if forall c :: 0 <= c < |run[0].todo| && c != a ==> run[0].todo[c] == [] {
      OneSenderIsServedFaithfully(run, a);
    }
  }

  // ----- what becomes of each message

  /** A send that has been decided but not finished. */
  predicate Decided(p: Client) {
    p.LockOver? || p.LoadOver? || p.StoreOver? || p.UnlockOver? || p.UnlockRing? || p.Copy? || p.PostStored?
  }

  function Messages(decisions: seq<(Message, bool)>): seq<Message> {
    seq(|decisions|, i requires 0 <= i < |decisions| => decisions[i].0)
  }

  /** The messages for which a slot was claimed. */
  function Accepted(sent: Log<(Message, bool)>): seq<Message> {
    if sent == [] then [] else
    var (m, claimed) := sent[|sent| - 1].1;
    Accepted(sent[..|sent| - 1]) + if claimed then [m] else []
  }

  lemma AcceptedOneMore(sent: Log<(Message, bool)>, c: nat, m: Message, claimed: bool)
    ensures Accepted(sent + [(c, (m, claimed))]) == Accepted(sent) + if claimed then [m] else []
  {
    assert (sent + [(c, (m, claimed))])[..|sent|] == sent;
  }

  /** What a client has still to decide. */
  function Rest(todo: seq<Message>, p: Client): seq<Message> {
    if Decided(p) && todo != [] then todo[1..] else todo
  }

  /** Each client decides its messages in order, one after the other; those a slot was claimed
      for are the accepted ones, and the others are the overflows. */
  ghost predicate FollowsScripts(s: State, scripts: seq<seq<Message>>) {
    && |scripts| == |s.clients| == |s.todo|
    && (forall c: nat :: c < |scripts| ==>
          Messages(Of(s.sent, c)) + Rest(s.todo[c], s.clients[c]) == scripts[c])
    && s.accepted == Accepted(s.sent)
    && |s.sent| == s.attempts - Sum(CEmpty, s.clients)
  }

  /** What one statement of client c decides: nothing, or its next message, which is refused
      only if there is no empty slot. */
  ghost predicate Decides(s: State, c: nat, t: State, d: seq<(Message, bool)>)
    requires c < |s.clients| == |s.todo|
  {
    && |d| <= 1 && t.sent == s.sent + Tagged(c, d) && |t.clients| == |s.clients| == |t.todo|
    && var (p, q) := (s.clients[c], t.clients[c]);
    && t.clients == s.clients[c := q] && t.todo == s.todo[c := t.todo[c]]
    && Rest(s.todo[c], p) == Messages(d) + Rest(t.todo[c], q)
    && t.attempts - CEmpty(q) == s.attempts - CEmpty(p) + |d|
    && t.accepted == s.accepted + (if d != [] && d[0].1 then [d[0].0] else [])
    && (d != [] ==> s.todo[c] != [] && d[0].0 == s.todo[c][0] && (d[0].1 || s.nempty <= 0))
  }

  lemma ClientDecides(s: State, c: nat) returns (d: seq<(Message, bool)>)
    requires ClientEnabled(s, c)
    ensures Decides(s, c, ClientStep(s, c), d)
  {
    assert ClientInBounds(s.clients[c], s.todo[c]);
    d := match s.clients[c]
      case TryEmpty => if s.nempty > 0 then [] else [(s.todo[c][0], false)]
      case IncPut(_) => [(s.todo[c][0], true)]
      case _ => [];
    hide Shape;
  }

  lemma MessagesOneMore(a: seq<(Message, bool)>, b: seq<(Message, bool)>, rest: seq<Message>)
    ensures Messages(a + b) + rest == Messages(a) + (Messages(b) + rest)
  {
    assert Messages(a + b) == Messages(a) + Messages(b);
  }

  lemma ClientFollows(s: State, c: nat, t: State, d: seq<(Message, bool)>, scripts: seq<seq<Message>>)
    requires FollowsScripts(s, scripts) && c < |s.clients| && Decides(s, c, t, d)
    ensures FollowsScripts(t, scripts)
  {
    SumUpdate(CEmpty, s.clients, c, t.clients[c]);
    if d != [] {
      AcceptedOneMore(s.sent, c, d[0].0, d[0].1);
    } else {
      assert s.sent + Tagged(c, d) == s.sent;
    }
    hide Sum, Of, Accepted, CEmpty, Messages, Rest;
    forall b: nat | b < |scripts| ensures Messages(Of(t.sent, b)) + Rest(t.todo[b], t.clients[b]) == scripts[b] {
      OfTagged(s.sent, c, d, b);
      if b == c {
        MessagesOneMore(Of(s.sent, c), d, Rest(t.todo[c], t.clients[c]));
      } else {
        assert Of(t.sent, b) == Of(s.sent, b);
      }
    }
  }

  lemma StepFollows(s: State, t: State, scripts: seq<seq<Message>>)
    requires FollowsScripts(s, scripts) && Next(s, t)
    ensures FollowsScripts(t, scripts)
  {
    if c: nat :| ClientEnabled(s, c) && t == ClientStep(s, c) {
      var d := ClientDecides(s, c);
      ClientFollows(s, c, t, d, scripts);
    } else {
      ServerDecidesNothing(s);
      hide Sum, Of, Accepted, Messages, Rest, ServerStep, ServerEnabled;
    }
  }

  lemma ServerDecidesNothing(s: State)
    requires ServerEnabled(s)
    ensures var t := ServerStep(s);
      && t.clients == s.clients && t.todo == s.todo && t.sent == s.sent
      && t.accepted == s.accepted && t.attempts == s.attempts
  {
  }

  lemma BeginsScripts(s: State)
    requires Init(s)
    ensures FollowsScripts(s, s.todo)
  {
    SumConstant(CEmpty, s.clients, 0);
  }

  /** In every state of every run each client has decided the beginning of its messages, in
      order; the accepted messages are exactly those decided for a slot; the other decisions
      are the overflows counted or about to be; and a message is refused only when no slot is
      empty (which `ClientDecides` says of every step). */
  lemma EveryMessageIsDecidedInOrder(run: seq<State>, k: nat)
    requires IsRun(Init, Next, run) && k < |run|
    ensures FollowsScripts(run[k], run[0].todo)
    ensures var s := run[k]; |s.sent| - |s.accepted| == s.noverflow + Sum(CRefused, s.clients)
  {
    EveryRunIsInvariant(run);
    BeginsScripts(run[0]);
    hide Init, Next, FollowsScripts, Inv;
    var n := 0;
    while n < k
      invariant 0 <= n <= k && FollowsScripts(run[n], run[0].todo)
    {
      assert Next(run[n], run[n + 1]);
      StepFollows(run[n], run[n + 1], run[0].todo);
      n := n + 1;
    }
    assert Inv(run[k]);
    RefusalsAreOverflows(run[k], run[0].todo);
  }

  lemma RefusalsAreOverflows(s: State, scripts: seq<seq<Message>>)
    requires Inv(s) && FollowsScripts(s, scripts)
    ensures |s.sent| - |s.accepted| == s.noverflow + Sum(CRefused, s.clients)
  {
  }

  // ----- what the server reports

  /** The reported overflow counts go strictly up, the last of them is the one remembered, and
      the one just read is up to date as long as the server holds the mutex. */
  ghost predicate Reported(s: State) {
    && (forall i, j :: 0 <= i < j < |s.reports| ==> s.reports[i] < s.reports[j])
    && (forall i :: 0 <= i < |s.reports| ==> 0 < s.reports[i] <= s.last)
    && s.last == (if s.reports == [] then 0 else s.reports[|s.reports| - 1])
    && 0 <= s.last <= s.noverflow
    && (s.server.UnlockCount? ==> s.temp == s.noverflow)
    && (s.server.UnlockCount? || s.server.Report? ==> s.last <= s.temp <= s.noverflow)
  }

  lemma ClientOnCount(s: State, c: nat)
    requires Inv(s) && ClientEnabled(s, c)
    ensures var t := ClientStep(s, c);
      && t.server == s.server && t.temp == s.temp && t.last == s.last && t.reports == s.reports
      && s.noverflow <= t.noverflow && (s.server.UnlockCount? ==> t.noverflow == s.noverflow)
  {
    if s.clients[c].StoreOver? {
      SumCovers(CHoldsOver, s.clients, c);
    }
    hide Sum;
  }

  lemma StepReported(s: State, t: State)
    requires Inv(s) && Reported(s) && Next(s, t)
    ensures Reported(t)
  {
    if c: nat :| ClientEnabled(s, c) && t == ClientStep(s, c) {
      ClientOnCount(s, c);
      hide Inv, ClientStep;
    } else {
      ServerOnCount(s);
      hide Inv, ServerStep, ServerEnabled;
      if s.server.Report? && s.temp != s.last {
        ReportedOnceMore(s.reports, s.last, s.temp);
      }
    }
  }

  lemma ServerOnCount(s: State)
    requires ServerEnabled(s)
    ensures var t := ServerStep(s);
      && t.noverflow == s.noverflow
      && (s.server.Report? ==> t.last == s.temp)
      && (!s.server.Report? ==> t.last == s.last && t.reports == s.reports)
      && (s.server.Report? ==>
            t.server == WaitStored && t.reports == if s.temp != s.last then s.reports + [s.temp] else s.reports)
      && (t.server.UnlockCount? ==> s.server.ReadCount? && t.temp == s.noverflow)
      && (t.server.Report? ==> s.server.UnlockCount? && t.temp == s.temp)
  {
  }

  lemma ReportedOnceMore(reports: seq<int>, last: int, temp: int)
    requires forall i, j :: 0 <= i < j < |reports| ==> reports[i] < reports[j]
    requires forall i :: 0 <= i < |reports| ==> 0 < reports[i] <= last
    requires 0 <= last < temp
    ensures var r := reports + [temp];
      && (forall i, j :: 0 <= i < j < |r| ==> r[i] < r[j])
      && (forall i :: 0 <= i < |r| ==> 0 < r[i] <= temp)
  {
  }

  /** In every state of every run the server has reported strictly increasing overflow counts,
      none larger than the count is. */
  lemma ReportsGoUp(run: seq<State>, k: nat)
    requires IsRun(Init, Next, run) && k < |run|
    ensures Reported(run[k])
  {
    EveryRunIsInvariant(run);
    assert Reported(run[0]);
    hide Init, Next, Reported, Inv;
    var n := 0;
    while n < k
      invariant 0 <= n <= k && Reported(run[n])
    {
      assert Next(run[n], run[n + 1]) && Inv(run[n]);
      StepReported(run[n], run[n + 1]);
      n := n + 1;
    }
  }

  // ----- two sending clients

  lemma Move(run: seq<State>, c: nat) returns (longer: seq<State>)
    requires IsRun(Init, Next, run) && ClientEnabled(Last(run), c)
    ensures IsRun(Init, Next, longer) && longer[0] == run[0]
    ensures Last(longer) == ClientStep(Last(run), c) && Shape(Last(longer))
  {
    longer := Extend(Init, Next, run, ClientStep(Last(run), c));
    EveryRunIsInvariant(longer);
  }

  lemma Serve(run: seq<State>) returns (longer: seq<State>)
    requires IsRun(Init, Next, run) && ServerEnabled(Last(run))
    ensures IsRun(Init, Next, longer) && longer[0] == run[0]
    ensures Last(longer) == ServerStep(Last(run)) && Shape(Last(longer))
  {
    longer := Extend(Init, Next, run, ServerStep(Last(run)));
    EveryRunIsInvariant(longer);
  }

  /** A client gets a token and the mutex. */
  lemma Enter(run: seq<State>, c: nat) returns (longer: seq<State>)
    requires IsRun(Init, Next, run)
    requires var s := Last(run);
      && Shape(s) && c < |s.clients| && s.clients[c] == LoopTest && s.todo[c] != []
      && s.nempty > 0 && s.mutex == 1
    ensures IsRun(Init, Next, longer) && longer[0] == run[0]
    ensures var (s, n) := (Last(run), Last(longer));
      && Shape(n) && n == s.(clients := s.clients[c := GetOffset], nempty := s.nempty - 1, mutex := 0,
           attempts := s.attempts + 1, granted := s.granted + 1)
  {
    var s := Last(run);
    longer := Move(run, c);
    longer := Move(longer, c);
    longer := Move(longer, c);
    assert Last(longer).clients == s.clients[c := GetOffset];
  }

  /** A client claims a slot and is about to copy into it. */
  lemma Claim(run: seq<State>, c: nat) returns (longer: seq<State>)
    requires IsRun(Init, Next, run)
    requires var s := Last(run);
      && Shape(s) && c < |s.clients| && s.clients[c] == LoopTest && s.todo[c] != []
      && s.nempty > 0 && s.mutex == 1
    ensures IsRun(Init, Next, longer) && longer[0] == run[0]
    ensures var (s, n) := (Last(run), Last(longer));
      && Shape(n) && n == s.(clients := s.clients[c := Copy(MESGSIZE * s.nput, 0)],
           nempty := s.nempty - 1, nput := Advance(s.nput, NMESG), accepted := s.accepted + [s.todo[c][0]],
           attempts := s.attempts + 1, granted := s.granted + 1, sent := s.sent + [(c, (s.todo[c][0], true))])
  {
    var s := Last(run);
    longer := Enter(run, c);
    longer := Move(longer, c);
    longer := Move(longer, c);
    longer := Move(longer, c);
    assert Last(longer).clients == s.clients[c := Copy(MESGSIZE * s.nput, 0)];
  }

  /** A client copies the rest of its message and announces it. */
  lemma CopyOut(run: seq<State>, c: nat) returns (longer: seq<State>)
    requires IsRun(Init, Next, run)
    requires var s := Last(run); Shape(s) && c < |s.clients| && s.clients[c].Copy?
    ensures IsRun(Init, Next, longer) && longer[0] == run[0]
    ensures var (s, n) := (Last(run), Last(longer));
      && Shape(n) && n.nstored == s.nstored + 1 && n.mutex == s.mutex && n.index == s.index
      && n.server == s.server && n.printed == s.printed && n.accepted == s.accepted
      && forall i :: 0 <= i < s.clients[c].off ==> n.data[i] == s.data[i]
    decreases var s := Last(run); |s.todo[c][0]| - s.clients[c].k
  {
    var s := Last(run);
    assert ClientInBounds(s.clients[c], s.todo[c]);
    longer := Move(run, c);
    if s.clients[c].k < |s.todo[c][0]| {
      longer := CopyOut(longer, c);
    } else {
      longer := Move(longer, c);
    }
  }

  /** The server prints a slot whose first character is still NUL. */
  lemma PrintNothing(run: seq<State>) returns (longer: seq<State>)
    requires IsRun(Init, Next, run)
    requires var s := Last(run);
      Shape(s) && s.server == WaitStored && s.nstored > 0 && s.mutex == 1 && s.index == 0 && s.data[0] == NUL
    ensures IsRun(Init, Next, longer) && longer[0] == run[0]
    ensures var (s, n) := (Last(run), Last(longer));
      n.printed == s.printed + [[]] && n.accepted == s.accepted
  {
    longer := Serve(run);
    longer := Serve(longer);
    longer := Serve(longer);
    longer := Serve(longer);
  }

  predicate ValidPool(todo: seq<seq<Message>>) {
    forall c :: 0 <= c < |todo| ==> forall m :: m in todo[c] ==> ValidMessage(m)
  }

  /** a claims slot 0 and is delayed, b claims slot 1, copies and announces it, and the
      server takes the announcement for slot 0, which holds nothing yet. */
  lemma TwoSendersCanGarble(todo: seq<seq<Message>>, a: nat, b: nat) returns (run: seq<State>)
    requires ValidPool(todo) && a < |todo| && b < |todo| && a != b && todo[a] != [] && todo[b] != []
    ensures IsRun(Init, Next, run) && run[0].todo == todo
    ensures !(Last(run).printed <= Last(run).accepted)
  {
    var s := State(1, NMESG, 0, 1, 0, 0, seq(NMESG, i requires 0 <= i => i * MESGSIZE), seq(NMESG * MESGSIZE, _ => NUL),
                   seq(|todo|, _ => LoopTest), todo, WaitStored, 0, 0, 0, [], [], 0, 0, 0, [], []);
    run := [s];
    assert todo[a][0] in todo[a] && todo[b][0] in todo[b];
    InitInv(s);
    run := Claim(run, a);
    run := Claim(run, b);
    run := CopyOut(run, b);
    run := PrintNothing(run);
    var n := Last(run);
    assert n.accepted[0] == todo[a][0] != [] && n.printed[0] == [];
  }

  ghost predicate CanGarble(todo: seq<seq<Message>>) {
    exists run :: IsRun(Init, Next, run) && Garbles(run, todo)
  }

  ghost predicate Garbles(run: seq<State>, todo: seq<seq<Message>>) {
    |run| > 0 && run[0].todo == todo && !(Last(run).printed <= Last(run).accepted)
  }

  /** What the server prints can differ from what was accepted exactly when two different
      clients have something to send. */
  lemma GarbledExactlyWithTwoSenders(todo: seq<seq<Message>>)
    requires ValidPool(todo)
    ensures CanGarble(todo) <==> exists a: nat, b: nat :: a < b < |todo| && todo[a] != [] && todo[b] != []
  {
    if a: nat, b: nat :| a < b < |todo| && todo[a] != [] && todo[b] != [] {
      var run := TwoSendersCanGarble(todo, a, b);
      assert Garbles(run, todo);
    } else {
      var a: nat := 0;
      if c: nat :| c < |todo| && todo[c] != [] {
        a := c;
      }
      forall run | IsRun(Init, Next, run) && Garbles(run, todo) ensures false {
        OneSenderIsServedFaithfully(run, a);
      }
    }
  }

  lemma ClientMoveIsAStep(s: State, t: State, c: nat)
    requires ClientEnabled(s, c) && t == ClientStep(s, c)
    ensures Next(s, t)
  {
  }

  // ----- the shared memory itself, updated in place

  class Shared {
    const msgoff: array<nat>
    const data: array<char>
    var mutex: int
    var nempty: int
    var nstored: int
    var overflowMutex: int
    var nput: int
    var noverflow: int
    const clients: array<Client>
    const todo: array<seq<Message>>
    var server: Server
    var index: int
    var temp: int
    var last: int
    var printed: seq<Message>
    ghost var accepted: seq<Message>
    ghost var attempts: int
    ghost var granted: int
    ghost var drained: nat
    ghost var sent: Log<(Message, bool)>
    var reports: seq<int>

    ghost function View(): State
      reads this, msgoff, data, clients, todo
    {
      State(mutex, nempty, nstored, overflowMutex, nput, noverflow, msgoff[..], data[..], clients[..], todo[..],
            server, index, temp, last, printed, accepted, attempts, granted, drained,
            sent, reports)
    }

    /** The server lays out the slots and initialises the semaphores. */
    constructor (messages: array<seq<Message>>)
      requires ValidPool(messages[..])
      ensures Init(View()) && todo == messages && fresh(msgoff) && fresh(data) && fresh(clients)
    {
      todo := messages;
      msgoff := new nat[NMESG];
      data := new char[NMESG * MESGSIZE](_ => NUL);
      clients := new Client[messages.Length](_ => LoopTest);
      mutex, nempty, nstored, overflowMutex := 1, NMESG, 0, 1;
      nput, noverflow := 0, 0;
      server, index, temp, last, printed := WaitStored, 0, 0, 0, [];
      accepted, attempts, granted, drained := [], 0, 0, 0;
      sent, reports := [], [];
      new;
      for i := 0 to NMESG
        modifies msgoff
        invariant forall j :: 0 <= j < i ==> msgoff[j] == j * MESGSIZE
      {
        msgoff[i] := i * MESGSIZE;
      }
    }

    /** One statement of client c. */
    method Client(c: nat)
      requires ClientEnabled(View(), c)
      modifies this, data, clients, todo
      ensures View() == ClientStep(old(View()), c)
    {
      match clients[c]
      case LoopTest => Try(c);
      case TryEmpty => Try(c);
      case LockOver => Count(c);
      case LoadOver => Count(c);
      case StoreOver(_) => Count(c);
      case UnlockOver => Count(c);
      case Copy(_, _) => Fill(c);
      case PostStored(_) => Fill(c);
      case LockRing => Put(c);
      case GetOffset => Put(c);
      case IncPut(_) => Claim(c);
      case UnlockRing(_) => Put(c);
    }

    /** The test of the loop, or the trywait. */
    method Try(c: nat)
      requires ClientEnabled(View(), c) && (clients[c].LoopTest? || clients[c].TryEmpty?)
      modifies this, clients
      ensures View() == ClientStep(old(View()), c)
    {
      assert c < todo.Length;
      assert ClientInBounds(View().clients[c], View().todo[c]);
      hide Shape;
      match clients[c]
      case LoopTest => clients[c] := if todo[c] == [] then Exited else TryEmpty;
      case TryEmpty =>
        attempts := attempts + 1;
        if nempty > 0 {
          nempty, granted := nempty - 1, granted + 1;
          clients[c] := LockRing;
        } else {
          sent := sent + [(c, (todo[c][0], false))];
          clients[c] := LockOver;
        }
    }

    /** One statement of counting an overflow. */
    method Count(c: nat)
      requires ClientEnabled(View(), c) && CHoldsOver(clients[c]) + One(clients[c].LockOver?) == 1
      modifies this, clients, todo
      ensures View() == ClientStep(old(View()), c)
    {
      assert c < todo.Length;
      assert ClientInBounds(View().clients[c], View().todo[c]);
      hide Shape;
      match clients[c]
      case LockOver =>
        overflowMutex := overflowMutex - 1;
        clients[c] := LoadOver;
      case LoadOver => clients[c] := StoreOver(noverflow);
      case StoreOver(n) =>
        noverflow := n + 1;
        clients[c] := UnlockOver;
      case UnlockOver =>
        overflowMutex := overflowMutex + 1;
        todo[c] := todo[c][1..];
        clients[c] := LoopTest;
    }

    /** One statement of client c in the critical section of the ring. */
    method Put(c: nat)
      requires ClientEnabled(View(), c)
      requires clients[c].LockRing? || clients[c].GetOffset? || clients[c].UnlockRing?
      modifies this, clients
      ensures View() == ClientStep(old(View()), c)
    {
      assert 0 <= nput < msgoff.Length && c < todo.Length;
      assert ClientInBounds(View().clients[c], View().todo[c]);
      hide Shape;
      match clients[c]
      case LockRing =>
        mutex := mutex - 1;
        clients[c] := GetOffset;
      case GetOffset => clients[c] := IncPut(msgoff[nput]);
      case UnlockRing(off) =>
        mutex := mutex + 1;
        clients[c] := Copy(off, 0);
    }

    /** Client c moves the index of the next slot on, which makes the slot its own. */
    method Claim(c: nat)
      requires ClientEnabled(View(), c) && clients[c].IncPut?
      modifies this, clients
      ensures View() == ClientStep(old(View()), c)
    {
      assert c < todo.Length;
      assert ClientInBounds(View().clients[c], View().todo[c]);
      hide Shape;
      nput := nput + 1;
      if nput >= NMESG {
        nput := 0;
      }
      accepted := accepted + [todo[c][0]];
      sent := sent + [(c, (todo[c][0], true))];
      clients[c] := UnlockRing(clients[c].off);
    }

    /** One statement of client c that copies its message into its slot and announces it. */
    method Fill(c: nat)
      requires ClientEnabled(View(), c) && (clients[c].Copy? || clients[c].PostStored?)
      modifies this, data, clients, todo
      ensures View() == ClientStep(old(View()), c)
    {
      assert c < todo.Length && data.Length == NMESG * MESGSIZE;
      assert ClientInBounds(View().clients[c], View().todo[c]);
      hide Shape;
      match clients[c]
      case Copy(off, k) =>
        if k < |todo[c][0]| {
          data[off + k] := todo[c][0][k];
          clients[c] := Copy(off, k + 1);
        } else {
          data[off + k] := NUL;
          clients[c] := PostStored(off);
        }
      case PostStored(_) =>
        nstored := nstored + 1;
        todo[c] := todo[c][1..];
        clients[c] := LoopTest;
    }

    /** One statement of the server. */
    method Serve()
      requires ServerEnabled(View())
      modifies this
      ensures View() == ServerStep(old(View()))
    {
      if SStored(server) == 1 {
        PrintMessage();
        return;
      }
      hide Shape;
      match server
      case WaitStored => nstored, server := nstored - 1, LockPrint;
      case UnlockPrint => mutex, server := mutex + 1, PostEmpty;
      case PostEmpty => nempty, server := nempty + 1, LockCount;
      case LockCount => overflowMutex, server := overflowMutex - 1, ReadCount;
      case ReadCount => temp, server := noverflow, UnlockCount;
      case UnlockCount => overflowMutex, server := overflowMutex + 1, Report;
      case Report =>
        if temp != last {
          reports := reports + [temp];
          last := temp;
        }
        server := WaitStored;
    }

    /** One statement of the critical section in which the server prints a message. */
    method PrintMessage()
      requires ServerEnabled(View()) && SStored(server) == 1
      modifies this
      ensures View() == ServerStep(old(View()))
    {
      assert 0 <= index < msgoff.Length;
      assert server.Print? ==> server.off + |server.text| < data.Length;
      hide Shape;
      match server
      case LockPrint => mutex, server := mutex - 1, LoadOffset;
      case LoadOffset => server := Print(msgoff[index], []);
      case Print(off, text) =>
        if data[off + |text|] == NUL {
          printed, server := printed + [text], IncIndex;
        } else {
          server := Print(off, text + [data[off + |text|]]);
        }
      case IncIndex =>
        index := index + 1;
        if index >= NMESG {
          index := 0;
        }
        drained, server := drained + 1, UnlockPrint;
    }

    /** Lets some client or the server execute a statement, if any can. */
    method Schedule() returns (moved: bool)
      requires Inv(View())
      modifies this, data, clients, todo
      ensures if moved then Next(old(View()), View()) else View() == old(View()) && Terminal(View())
    {
      assert Shape(View());
      ghost var before := View();
      hide Inv, ClientStep, ServerStep, Shape, Fenced;
      moved := true;
      if {
        case c: nat :| c < clients.Length && ClientCanMove(c) =>
          Client(c);
          ClientMoveIsAStep(before, View(), c);
        case ServerCanMove() =>
          Serve();
        case (forall c: nat :: c < clients.Length ==> !ClientCanMove(c)) && !ServerCanMove() =>
          forall c: nat ensures !ClientEnabled(View(), c) {
            if c < clients.Length {
              assert !ClientCanMove(c);
            }
          }
          moved := false;
      }
    }

    /** Runs clients and server under an arbitrary scheduler until nobody can move. All
        messages have then been accepted and printed from or counted as overflows; if only
        client a had something to send, what is printed is what was accepted. */
    method Run(a: nat)
      requires Init(View())
      modifies this, data, clients, todo
      ensures Terminal(View()) && forall c :: 0 <= c < |View().clients| ==> View().clients[c].Exited?
      ensures attempts == |accepted| + noverflow == old(Sum(Length, View().todo))
      ensures |printed| == |accepted| && nempty == NMESG && nstored == 0
      ensures old(forall c :: 0 <= c < |View().todo| && c != a ==> View().todo[c] == []) ==> printed == accepted
    {
      InitInv(View());
      ghost var start := View();
      ghost var run := [start];
      hide Inv, Init, Next, Sum, Measure, Terminal;
      var moved := true;
      while moved
        invariant IsRun(Init, Next, run) && Last(run) == View() && run[0] == start
        invariant Inv(View()) && (!moved ==> Terminal(View()))
        decreases moved, Measure(View())
      {
        ghost var before := View();
        MeasureNonneg(before);
        moved := Schedule();
        if moved {
          StepInv(before, View());
          StepProgresses(before, View());
          run := Extend(Init, Next, run, View());
        }
      }
      EveryMaximalRunServes(run, a);
    }

    predicate ClientCanMove(c: nat): (can: bool)
      requires Shape(View()) && c < clients.Length
      reads this, msgoff, data, clients, todo
      ensures can == ClientEnabled(View(), c)
    {
      match clients[c]
      case Exited => false
      case LockOver => overflowMutex > 0
      case LockRing => mutex > 0
      case _ => true
    }

    predicate ServerCanMove(): (can: bool)
      requires Shape(View())
      reads this, msgoff, data, clients, todo
      ensures can == ServerEnabled(View())
    {
      match server
      case WaitStored => nstored > 0
      case LockPrint => mutex > 0
      case LockCount => overflowMutex > 0
      case _ => true
    }
  }
}
