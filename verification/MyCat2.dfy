/** pxsem/mycat2.cpp: a reader thread and a writer thread copy a file through NBUFF
    buffers that are handed over by semaphores; the mutex protects nothing, every access to
    a buffer happens outside it, and an empty read is passed on as the terminator.

    A read may return any number of bytes from 1 to BUFFSIZE as long as input is left. */
module MyCat2 {
  import opened Bytes
  import opened Rings
  import opened Runs
  import opened Sequences
  import opened Tally

  const NBUFF: nat := 8
  const BUFFSIZE: nat := 8192

  datatype Producer =
    | WaitEmpty | LockP | UnlockP | ReadData | SetCount(r: nat) | TestCount | PostLast | ProducerDone
    | IncP | PostStored

  datatype Consumer =
    | WaitStored | LockC | UnlockC | TestEnd | ConsumerDone | WriteData | IncC | PostEmpty

  /** The buffers are `data` with their counts `n`; `unread` is what is left of the input
      file. `chunks` logs the reads, `filled` and `drained` count buffers handed over. */
  datatype State = State(
    data: seq<seq<byte>>, n: seq<int>, mutex: int, nempty: int, nstored: int,
    producer: Producer, ip: nat, consumer: Consumer, ic: nat,
    input: seq<byte>, unread: seq<byte>, written: seq<byte>,
    chunks: seq<seq<byte>>, filled: nat, drained: nat)

  datatype Action = Produce(r: nat) | Consume

  ghost predicate Init(s: State) {
    && |s.data| == NBUFF && (forall i :: 0 <= i < NBUFF ==> |s.data[i]| == BUFFSIZE)
    && s.n == seq(NBUFF, _ => 0)
    && s.mutex == 1 && s.nempty == NBUFF && s.nstored == 0
    && s.producer == WaitEmpty && s.consumer == WaitStored && s.ip == s.ic == 0
    && s.unread == s.input && s.written == [] && s.chunks == [] && s.filled == s.drained == 0
  }

  /** Sizes, and the bound on the count the writer passes on; every reachable state has them. */
  predicate Shape(s: State) {
    && |s.data| == |s.n| == NBUFF && s.ip < NBUFF && s.ic < NBUFF
    && (forall i :: 0 <= i < NBUFF ==> |s.data[i]| == BUFFSIZE)
    && (s.consumer.WriteData? ==> 0 <= s.n[s.ic] <= BUFFSIZE)
  }

  /** What `read` may return. */
  predicate Readable(s: State, r: nat) {
    r <= BUFFSIZE && r <= |s.unread| && (r == 0 <==> s.unread == [])
  }

  predicate Enabled(s: State, a: Action) {
    && Shape(s)
    && match a
       case Produce(r) =>
         (match s.producer
          case WaitEmpty => s.nempty > 0
          case LockP => s.mutex > 0
          case ReadData => Readable(s, r)
          case ProducerDone => false
          case _ => true)
       case Consume =>
         (match s.consumer
          case WaitStored => s.nstored > 0
          case LockC => s.mutex > 0
          case ConsumerDone => false
          case _ => true)
  }

  /** One statement of `produce`. */
  function ProduceStep(s: State, r: nat): State
    requires Enabled(s, Produce(r))
  {
    match s.producer
    case WaitEmpty => s.(producer := LockP, nempty := s.nempty - 1)
    case LockP => s.(producer := UnlockP, mutex := s.mutex - 1)
    case UnlockP => s.(producer := ReadData, mutex := s.mutex + 1)
    case ReadData => s.(producer := SetCount(r), data := s.data[s.ip := s.unread[..r] + s.data[s.ip][r..]],
                        unread := s.unread[r..],
                        chunks := if r == 0 then s.chunks else s.chunks + [s.unread[..r]])
    case SetCount(k) => s.(producer := TestCount, n := s.n[s.ip := k])
    case TestCount => s.(producer := if s.n[s.ip] == 0 then PostLast else IncP)
    case PostLast => s.(producer := ProducerDone, nstored := s.nstored + 1)
    case ProducerDone => s
    case IncP => s.(producer := PostStored, ip := Advance(s.ip, NBUFF), filled := s.filled + 1)
    case PostStored => s.(producer := WaitEmpty, nstored := s.nstored + 1)
  }

  /** One statement of `consume`. */
  function ConsumeStep(s: State): State
    requires Enabled(s, Consume)
  {
    match s.consumer
    case WaitStored => s.(consumer := LockC, nstored := s.nstored - 1)
    case LockC => s.(consumer := UnlockC, mutex := s.mutex - 1)
    case UnlockC => s.(consumer := TestEnd, mutex := s.mutex + 1)
    case TestEnd => s.(consumer := if s.n[s.ic] == 0 then ConsumerDone else WriteData)
    case ConsumerDone => s
    case WriteData => s.(consumer := IncC, written := s.written + s.data[s.ic][..s.n[s.ic]])
    case IncC => s.(consumer := PostEmpty, ic := Advance(s.ic, NBUFF), drained := s.drained + 1)
    case PostEmpty => s.(consumer := WaitStored, nempty := s.nempty + 1)
  }

  function Do(s: State, a: Action): State
    requires Enabled(s, a)
  {
    match a
    case Produce(r) => ProduceStep(s, r)
    case Consume => ConsumeStep(s)
  }

  ghost predicate Next(s: State, t: State) {
    exists a :: Enabled(s, a) && t == Do(s, a)
  }

  // ----- the invariant

  /** The reader has an `nempty` token that it has not turned into a filled buffer. */
  predicate HoldsEmpty(p: Producer) { !p.WaitEmpty? && !p.PostStored? }

  /** The writer has an `nstored` token. */
  predicate HoldsStored(c: Consumer) { !c.WaitStored? && !c.PostEmpty? }

  /** The reader's buffer holds a nonempty chunk that is not yet counted as filled. */
  predicate Pending(s: State)
    requires Shape(s)
  {
    match s.producer
    case SetCount(r) => r > 0
    case TestCount => s.n[s.ip] != 0
    case IncP => true
    case _ => false
  }

  ghost predicate Tokens(s: State) {
    Counts(s) && s.ip == s.filled % NBUFF && s.ic == s.drained % NBUFF
  }

  ghost predicate Counts(s: State) {
    && s.mutex + One(s.producer.UnlockP?) + One(s.consumer.UnlockC?) == 1
    && s.nempty + One(HoldsEmpty(s.producer)) + s.filled - s.drained + One(s.consumer.PostEmpty?) == NBUFF
    && s.nstored + One(HoldsStored(s.consumer)) + One(s.producer.PostStored?)
       == s.filled - s.drained + One(s.producer.ProducerDone?)
    && s.mutex >= 0 && s.nempty >= 0 && s.nstored >= 0 && s.drained <= s.filled
  }

  /** Buffer i holds the given chunk. */
  ghost predicate Loaded(s: State, i: nat, chunk: seq<byte>)
    requires Shape(s) && i < NBUFF
  {
    s.n[i] == |chunk| && |chunk| <= BUFFSIZE && s.data[i][..|chunk|] == chunk
  }

  ghost predicate Buffers(s: State)
    requires Shape(s)
  {
    && |s.chunks| == s.filled + One(Pending(s))
    && (forall k :: 0 <= k < |s.chunks| ==> 0 < |s.chunks[k]| <= BUFFSIZE)
    && (forall k :: s.drained <= k < s.filled ==> Loaded(s, k % NBUFF, s.chunks[k]))
    && (match s.producer
        case SetCount(r) => r <= BUFFSIZE &&
          if r == 0 then s.unread == [] else |s.chunks[s.filled]| == r && s.data[s.ip][..r] == s.chunks[s.filled]
        case TestCount => if s.n[s.ip] == 0 then s.unread == [] else Loaded(s, s.ip, s.chunks[s.filled])
        case IncP => Loaded(s, s.ip, s.chunks[s.filled])
        case PostLast | ProducerDone => s.unread == [] && s.n[s.ip] == 0
        case _ => true)
    && (match s.consumer
        case WriteData | IncC => s.drained < s.filled
        case ConsumerDone => s.producer.ProducerDone? && s.drained == s.filled
        case _ => true)
  }

  ghost predicate Stream(s: State) {
    && Flatten(s.chunks) + s.unread == s.input
    && s.drained + One(s.consumer.IncC?) <= |s.chunks|
    && s.written == Flatten(s.chunks[..s.drained + One(s.consumer.IncC?)])
  }

  ghost predicate Inv(s: State) {
    Shape(s) && Tokens(s) && Buffers(s) && Stream(s)
  }

  // ----- proofs

  lemma ProduceKeepsCounts(s: State, r: nat)
    requires Counts(s) && Enabled(s, Produce(r))
    ensures Counts(ProduceStep(s, r))
  {
    hide Advance;
  }

  lemma ProduceKeepsTokens(s: State, r: nat)
    requires Inv(s) && Enabled(s, Produce(r))
    ensures Tokens(ProduceStep(s, r))
  {
    ProduceKeepsCounts(s, r);
    AdvanceIsCircular(s.filled, NBUFF);
    hide Stream, Flatten, Buffers, Advance, Counts;
  }

  /** The reader's count goes to a buffer the writer is not looking at. */
  lemma ProduceKeepsShape(s: State, r: nat)
    requires Inv(s) && Enabled(s, Produce(r))
    ensures Shape(ProduceStep(s, r))
  {
    hide Stream, Flatten;
  }

  lemma ConsumeKeepsTokens(s: State)
    requires Inv(s) && Enabled(s, Consume)
    ensures Tokens(ConsumeStep(s))
  {
    hide Stream, Flatten, Loaded, Advance;
    AdvanceIsCircular(s.drained, NBUFF);
  }

  /** While the reader is filling its buffer, that buffer is none of the unread ones. */
  lemma ReaderIsAlone(s: State)
    requires Inv(s) && HoldsEmpty(s.producer)
    ensures s.filled - s.drained < NBUFF
    ensures forall k :: s.drained <= k < s.filled ==> k % NBUFF != s.ip
  {
    forall k: nat | s.drained <= k < s.filled ensures k % NBUFF != s.ip {
      SlotsApart(k, s.filled, NBUFF);
    }
  }

  lemma ProduceKeepsBuffers(s: State, r: nat)
    requires Inv(s) && Enabled(s, Produce(r))
    requires Shape(ProduceStep(s, r))
    ensures Buffers(ProduceStep(s, r))
  {
    hide Stream, Flatten;
    var t := ProduceStep(s, r);
    if HoldsEmpty(s.producer) {
      ReaderIsAlone(s);
    }
    forall k | s.drained <= k < s.filled ensures Loaded(t, k % NBUFF, t.chunks[k]) {
      assert Loaded(s, k % NBUFF, s.chunks[k]);
    }
  }

  lemma ProduceKeepsStream(s: State, r: nat)
    requires Inv(s) && Enabled(s, Produce(r))
    ensures Stream(ProduceStep(s, r))
  {
    hide Flatten, Tokens, Buffers;
    var t := ProduceStep(s, r);
    if s.producer.ReadData? {
      ReadKeepsStream(s.chunks, s.unread, r, s.drained + One(s.consumer.IncC?));
    }
  }

  /** Reading moves the front of the unread input to the end of the chunks. */
  lemma ReadKeepsStream(chunks: seq<seq<byte>>, unread: seq<byte>, r: nat, m: nat)
    requires r <= |unread| && m <= |chunks|
    ensures Flatten(chunks + [unread[..r]]) + unread[r..] == Flatten(chunks) + unread
    ensures (chunks + [unread[..r]])[..m] == chunks[..m]
    ensures r == 0 ==> unread[r..] == unread
  {
    FlattenAppend(chunks, unread[..r]);
    Regroup(Flatten(chunks), unread[..r], unread[r..]);
    Cut(unread, r);
  }

  lemma ConsumeKeepsBuffers(s: State)
    requires Inv(s) && Enabled(s, Consume)
    ensures var t := ConsumeStep(s); Shape(t) && Buffers(t)
  {
    hide Stream, Flatten;
    var t := ConsumeStep(s);
    if s.consumer.TestEnd? && s.drained < s.filled {
      assert Loaded(s, s.drained % NBUFF, s.chunks[s.drained]);
    }
    forall k | t.drained <= k < t.filled ensures Loaded(t, k % NBUFF, t.chunks[k]) {
      assert Loaded(s, k % NBUFF, s.chunks[k]);
    }
  }

  lemma ConsumeKeepsStream(s: State)
    requires Inv(s) && Enabled(s, Consume)
    ensures Stream(ConsumeStep(s))
  {
    hide Flatten;
    var t := ConsumeStep(s);
    if s.consumer.WriteData? {
      var d := s.drained;
      assert Loaded(s, d % NBUFF, s.chunks[d]);
      FlattenAppend(s.chunks[..d], s.chunks[d]);
      assert s.chunks[..d + 1] == s.chunks[..d] + [s.chunks[d]];
    }
  }

  lemma StepInv(s: State, a: Action)
    requires Inv(s) && Enabled(s, a)
    ensures Inv(Do(s, a))
  {
    match a
    case Produce(r) =>
      ProduceKeepsTokens(s, r);
      ProduceKeepsShape(s, r);
      ProduceKeepsBuffers(s, r);
      ProduceKeepsStream(s, r);
    case Consume =>
      ConsumeKeepsTokens(s);
      ConsumeKeepsBuffers(s);
      ConsumeKeepsStream(s);
  }

  function PRank(s: State): int
    requires Shape(s)
  {
    match s.producer
    case WaitEmpty => 10 case LockP => 9 case UnlockP => 8 case ReadData => 7
    case SetCount(r) => if r == 0 then 6 else 45
    case TestCount => if s.n[s.ip] == 0 then 5 else 44
    case IncP => 43 case PostStored => 12
    case PostLast => 4 case ProducerDone => 0
  }

  function CRank(c: Consumer): int {
    match c
    case WaitStored => 10 case LockC => 9 case UnlockC => 8 case TestEnd => 7
    case WriteData => 6 case IncC => 5 case PostEmpty => 12 case ConsumerDone => 0
  }

  function Measure(s: State): int {
    if !Shape(s) then 0 else 40 * |s.unread| + 20 * (s.filled - s.drained) + PRank(s) + CRank(s.consumer)
  }

  lemma ProduceProgresses(s: State, r: nat)
    requires Inv(s) && Enabled(s, Produce(r)) && Inv(ProduceStep(s, r))
    ensures Measure(ProduceStep(s, r)) < Measure(s)
  {
    hide Stream, Flatten, Tokens;
  }

  lemma ConsumeProgresses(s: State)
    requires Inv(s) && Enabled(s, Consume) && Inv(ConsumeStep(s))
    ensures Measure(ConsumeStep(s)) < Measure(s)
  {
    hide Stream, Flatten, Tokens, Loaded;
  }

  lemma StepProgresses(s: State, a: Action)
    requires Inv(s) && Enabled(s, a)
    ensures 0 <= Measure(Do(s, a)) < Measure(s)
  {
    StepInv(s, a);
    MeasureNonneg(Do(s, a));
    match a
    case Produce(r) => ProduceProgresses(s, r);
    case Consume => ConsumeProgresses(s);
  }

  lemma MeasureNonneg(s: State)
    requires Inv(s)
    ensures Measure(s) >= 0
  {
  }

  lemma EveryRunIsInvariant(run: seq<State>)
    requires IsRun(Init, Next, run)
    ensures forall k :: 0 <= k < |run| ==> Inv(run[k])
  {
    forall s | Init(s) ensures Inv(s) {
      assert s.chunks[..0] == [];
    }
    forall s, t | Inv(s) && Next(s, t) ensures Inv(t) {
      var a :| Enabled(s, a) && t == Do(s, a);
      StepInv(s, a);
    }
    Invariance(Init, Next, Inv, run);
  }

  // ----- the theorems

  /** For every chunking of the input and every interleaving, what has been written is
      always a prefix of what was read, which is a prefix of the input. */
  lemma WrittenIsAPrefix(run: seq<State>, k: nat)
    requires IsRun(Init, Next, run) && k < |run|
    ensures run[k].written <= Flatten(run[k].chunks) <= run[k].input == run[0].input
  {
    EveryRunIsInvariant(run);
    var s := run[k];
    assert Inv(s);
    FlattenPrefix(s.chunks, s.drained + One(s.consumer.IncC?));
    InputIsFixed(run, k);
  }

  lemma {:induction false} InputIsFixed(run: seq<State>, k: nat)
    requires IsRun(Init, Next, run) && k < |run|
    ensures run[k].input == run[0].input
  {
    if k > 0 {
      InputIsFixed(run, k - 1);
      assert Next(run[k - 1], run[k]);
    }
  }

  predicate ReaderAccesses(p: Producer) { p.ReadData? || p.SetCount? || p.TestCount? }
  predicate WriterAccesses(c: Consumer) { c.TestEnd? || c.WriteData? }

  /** Although every access is outside the mutex, the two threads are never at work on the
      same buffer. */
  lemma NeverTheSameBuffer(run: seq<State>, k: nat)
    requires IsRun(Init, Next, run) && k < |run|
    requires ReaderAccesses(run[k].producer) && WriterAccesses(run[k].consumer)
    ensures run[k].ip != run[k].ic
  {
    EveryRunIsInvariant(run);
    assert Inv(run[k]);
    ReaderIsAlone(run[k]);
  }

  ghost predicate Terminal(s: State) {
    forall a :: !Enabled(s, a)
  }

  /** A state in which nothing can move has both threads returned and the whole input
      written. */
  lemma StuckMeansCopied(s: State)
    requires Inv(s) && Terminal(s)
    ensures s.producer.ProducerDone? && s.consumer.ConsumerDone? && s.written == s.input
  {
    assert !Enabled(s, Consume);
    var r: nat := if |s.unread| < BUFFSIZE then |s.unread| else BUFFSIZE;
    assert !Enabled(s, Produce(r));
    assert s.written == Flatten(s.chunks[..|s.chunks|]);
    assert s.chunks[..|s.chunks|] == s.chunks;
  }

  /** Every run is finite, and every maximal run has copied the file. */
  lemma EveryMaximalRunCopies(run: seq<State>)
    requires IsRun(Init, Next, run)
    ensures |run| <= 40 * |run[0].input| + 21
    ensures Terminal(Last(run)) ==> Last(run).written == run[0].input
  {
    EveryRunIsInvariant(run);
    var n := 0;
    while n + 1 < |run|
      invariant 0 <= n < |run|
      invariant Measure(run[n]) + n <= Measure(run[0])
      invariant n > 0 ==> Measure(run[n]) >= 0
    {
      assert Next(run[n], run[n + 1]);
      var a :| Enabled(run[n], a) && run[n + 1] == Do(run[n], a);
      StepProgresses(run[n], a);
      n := n + 1;
    }
    if Terminal(run[n]) {
      StuckMeansCopied(run[n]);
      InputIsFixed(run, n);
    }
  }

  // ----- the program

  /** The shared buffers and semaphores with the two threads, the input and the output. */
  class Shared {
    const data: array<seq<byte>>
    const n: array<int>
    const input: seq<byte>
    var mutex: int
    var nempty: int
    var nstored: int
    var producer: Producer
    var ip: nat
    var consumer: Consumer
    var ic: nat
    var unread: seq<byte>
    var written: seq<byte>
    ghost var chunks: seq<seq<byte>>
    ghost var filled: nat
    ghost var drained: nat

    ghost function View(): State
      reads this, data, n
    {
      State(data[..], n[..], mutex, nempty, nstored, producer, ip, consumer, ic,
            input, unread, written, chunks, filled, drained)
    }

    constructor (file: seq<byte>)
      ensures Init(View()) && input == file && fresh(data) && fresh(n)
    {
      data := new seq<byte>[NBUFF](_ => seq(BUFFSIZE, _ => 0));
      n := new int[NBUFF](_ => 0);
      input, unread, written := file, file, [];
      mutex, nempty, nstored := 1, NBUFF, 0;
      producer, ip, consumer, ic := WaitEmpty, 0, WaitStored, 0;
      chunks, filled, drained := [], 0, 0;
    }

    /** One statement of `produce`; r is what `read` returns if it is called. */
    method Produce(r: nat)
      requires Enabled(View(), Action.Produce(r))
      modifies this, data, n
      ensures View() == ProduceStep(old(View()), r)
    {
      match producer
      case WaitEmpty => nempty, producer := nempty - 1, LockP;
      case LockP => mutex, producer := mutex - 1, UnlockP;
      case UnlockP => mutex, producer := mutex + 1, ReadData;
      case ReadData =>
        data[ip] := unread[..r] + data[ip][r..];
        chunks := if r == 0 then chunks else chunks + [unread[..r]];
        unread, producer := unread[r..], SetCount(r);
      case SetCount(k) =>
        n[ip] := k;
        producer := TestCount;
      case TestCount => producer := if n[ip] == 0 then PostLast else IncP;
      case PostLast => nstored, producer := nstored + 1, ProducerDone;
      case IncP =>
        ip := ip + 1;
        if ip >= NBUFF {
          ip := 0;
        }
        filled, producer := filled + 1, PostStored;
      case PostStored => nstored, producer := nstored + 1, WaitEmpty;
    }

    /** One statement of `consume`. */
    method Consume()
      requires Enabled(View(), Action.Consume)
      modifies this
      ensures View() == ConsumeStep(old(View()))
    {
      match consumer
      case WaitStored => nstored, consumer := nstored - 1, LockC;
      case LockC => mutex, consumer := mutex - 1, UnlockC;
      case UnlockC => mutex, consumer := mutex + 1, TestEnd;
      case TestEnd => consumer := if n[ic] == 0 then ConsumerDone else WriteData;
      case WriteData => written, consumer := written + data[ic][..n[ic]], IncC;
      case IncC =>
        ic := ic + 1;
        if ic >= NBUFF {
          ic := 0;
        }
        drained, consumer := drained + 1, PostEmpty;
      case PostEmpty => nempty, consumer := nempty + 1, WaitStored;
    }

    predicate ProducerCanMove()
      reads this
    {
      !producer.ProducerDone? && (producer.WaitEmpty? ==> nempty > 0) && (producer.LockP? ==> mutex > 0)
    }

    predicate ConsumerCanMove()
      reads this
    {
      !consumer.ConsumerDone? && (consumer.WaitStored? ==> nstored > 0) && (consumer.LockC? ==> mutex > 0)
    }

    /** What the next `read` returns: any nonempty part of what is left that fits. */
    method Read() returns (r: nat)
      ensures Readable(View(), r)
    {
      var most: nat := if |unread| < BUFFSIZE then |unread| else BUFFSIZE;
      if unread == [] {
        return 0;
      }
      r :| 0 < r <= most;
    }

    /** Runs both threads under an arbitrary scheduler and arbitrary read sizes. */
    method Run()
      requires Init(View())
      modifies this, data, n
      ensures written == input && producer.ProducerDone? && consumer.ConsumerDone?
    {
      assert chunks[..0] == [];
      hide Tokens, Buffers, Stream, ProduceStep, ConsumeStep, Measure;
      while ProducerCanMove() || ConsumerCanMove()
        invariant Inv(View())
        decreases Measure(View())
      {
        ghost var before := View();
        var choice := *;
        MeasureNonneg(before);
        if ProducerCanMove() && (choice || !ConsumerCanMove()) {
          var r := Read();
          Produce(r);
          StepProgresses(before, Action.Produce(r));
          StepInv(before, Action.Produce(r));
        } else {
          Consume();
          StepProgresses(before, Action.Consume);
          StepInv(before, Action.Consume);
        }
      }
      StuckMeansCopied(View());
    }
  }
}
