/** The race to initialise in `mysem_open`: any number of callers open the same path, the
    one whose exclusive open succeeds initialises the mapped file and clears its
    user-execute bit last, the others poll that bit through the path name.

    A caller may be `faulty`: one of its own system calls may fail while it initialises. */
module SemOpen {
  import opened Logs
  import opened Tally
  import opened Runs

  const MAX_TRIES: nat := 10

  datatype Errno = EEXIST | ENOENT | EINVAL | ETIMEDOUT | EFAILED

  /** The arguments of one call: O_CREAT, O_EXCL and the initial value. */
  datatype Request = Request(creat: bool, excl: bool, value: int, faulty: bool)

  /** A file: its user-execute bit, what has been initialised, and which of the calls
      created it, if any did. */
  datatype File = File(exec: bool, zeroed: bool, mutexReady: bool, condReady: bool,
                       count: Option<int>, magic: bool, creator: Option<nat>)

  /** The statement a caller executes next; `Created` and `Joined` have returned the
      mapping of a file, `Failed` has returned SEM_FAILED. */
  datatype Point =
    | OpenExcl
    | Write(file: nat) | MapNew(file: nat) | InitMutex(file: nat) | InitCond(file: nat)
    | SetCount(file: nat) | ClearExec(file: nat) | MagicNew(file: nat)
    | OpenOld | MapOld(file: nat) | Poll(file: nat, tries: nat) | MagicOld(file: nat)
    | Cleanup(created: Option<nat>, errno: Errno)
    | Created(file: nat) | Joined(file: nat) | Failed(errno: Errno)

  datatype State = State(requests: seq<Request>, maxValue: int,
                         files: seq<File>, path: Option<nat>, points: seq<Point>)

  datatype Action = Go(t: nat) | Fault(t: nat)

  function Entry(r: Request): Point { if r.creat then OpenExcl else OpenOld }

  /** The calls begin with no file at the path, or with one left there before: a semaphore
      that is complete if its user-execute bit is clear, and otherwise whatever an
      unfinished creator left. */
  ghost predicate Init(s: State) {
    && (if s.files == [] then s.path == None else
          && |s.files| == 1 && s.path == Some(0) && s.files[0].creator == None
          && (!s.files[0].exec ==> Initialised(s.files[0])))
    && |s.points| == |s.requests|
    && forall t :: 0 <= t < |s.points| ==> s.points[t] == Entry(s.requests[t])
  }

  /** The file a caller is in the course of initialising. */
  function Building(p: Point): Option<nat> {
    match p
    case Write(f) => Some(f)
    case MapNew(f) => Some(f)
    case InitMutex(f) => Some(f)
    case InitCond(f) => Some(f)
    case SetCount(f) => Some(f)
    case ClearExec(f) => Some(f)
    case _ => None
  }

  predicate Finished(p: Point) { p.Created? || p.Joined? || p.Failed? }

  function FileOf(p: Point): Option<nat> {
    match p
    case OpenExcl | OpenOld | Failed(_) => None
    case Cleanup(created, _) => created
    case MagicNew(f) => Some(f)
    case MapOld(f) => Some(f)
    case Poll(f, _) => Some(f)
    case MagicOld(f) => Some(f)
    case Created(f) => Some(f)
    case Joined(f) => Some(f)
    case _ => Building(p)
  }

  predicate Shape(s: State) {
    && |s.points| == |s.requests|
    && (s.path.Some? ==> s.path.value < |s.files|)
    && forall t :: 0 <= t < |s.points| ==> FileOf(s.points[t]).Some? ==> FileOf(s.points[t]).value < |s.files|
  }

  predicate Enabled(s: State, a: Action) {
    && Shape(s)
    && a.t < |s.points|
    && match a
       case Go(t) => !Finished(s.points[t])
       case Fault(t) => s.requests[t].faulty && Building(s.points[t]).Some? && !s.points[t].SetCount?
  }

  function Move(s: State, t: nat, p: Point): State
    requires t < |s.points|
  {
    s.(points := s.points[t := p])
  }

  function Put(s: State, f: nat, file: File): State
    requires f < |s.files|
  {
    s.(files := s.files[f := file])
  }

  /** The loop at `again`: back to the exclusive open, or out with ENOENT. */
  function Vanished(r: Request): Point {
    if r.creat then OpenExcl else Cleanup(None, ENOENT)
  }

  function Do(s: State, a: Action): State
    requires Enabled(s, a)
  {
    var t := a.t;
    var r := s.requests[t];
    if a.Fault? then Move(s, t, Cleanup(Building(s.points[t]), EFAILED)) else
    match s.points[t]
    case OpenExcl =>
      if s.path.None? then
        Move(s, t, Write(|s.files|)).(
          files := s.files + [File(true, false, false, false, None, false, Some(t))],
          path := Some(|s.files|))
      else
        Move(s, t, if r.excl then Failed(EEXIST) else OpenOld)
    case Write(f) => Put(Move(s, t, MapNew(f)), f, s.files[f].(zeroed := true))
    case MapNew(f) => Move(s, t, InitMutex(f))
    case InitMutex(f) => Put(Move(s, t, InitCond(f)), f, s.files[f].(mutexReady := true))
    case InitCond(f) => Put(Move(s, t, SetCount(f)), f, s.files[f].(condReady := true))
    case SetCount(f) =>
      Put(Move(s, t, if r.value > s.maxValue then Cleanup(Some(f), EINVAL) else ClearExec(f)),
          f, s.files[f].(count := Some(r.value)))
    case ClearExec(f) => Put(Move(s, t, MagicNew(f)), f, s.files[f].(exec := false))
    case MagicNew(f) => Put(Move(s, t, Created(f)), f, s.files[f].(magic := true))
    case OpenOld =>
      (match s.path
       case None => Move(s, t, Vanished(r))
       case Some(f) => Move(s, t, MapOld(f)))
    case MapOld(f) => Move(s, t, Poll(f, 0))
    case Poll(f, tries) =>
      if tries >= MAX_TRIES then Move(s, t, Cleanup(None, ETIMEDOUT)) else
      (match s.path
       case None => Move(s, t, Vanished(r))
       case Some(g) => Move(s, t, if s.files[g].exec then Poll(f, tries + 1) else MagicOld(f)))
    case MagicOld(f) => Put(Move(s, t, Joined(f)), f, s.files[f].(magic := true))
    case Cleanup(created, e) =>
      var n := Move(s, t, Failed(e));
      if created.Some? then n.(path := None) else n
    case _ => s
  }

  /** No call can take a step. */
  ghost predicate Terminal(s: State) {
    forall a :: !Enabled(s, a)
  }

  predicate AllReturned(s: State) {
    forall t :: 0 <= t < |s.points| ==> Finished(s.points[t])
  }

  ghost predicate Next(s: State, t: State) {
    exists a :: Enabled(s, a) && t == Do(s, a)
  }

  // ----- the invariant

  predicate Initialised(f: File) { f.zeroed && f.mutexReady && f.condReady && f.count.Some? }

  /** A call that may create the file and then fail. */
  predicate MayFail(r: Request, maxValue: int) { r.creat && (r.value > maxValue || r.faulty) }

  predicate Doomed(s: State, r: Request) { MayFail(r, s.maxValue) }

  /** A call that can go on to open a file created by somebody else. */
  predicate MayJoin(r: Request) { !(r.creat && r.excl) }

  /** The path names a file whose execute bit is clear. */
  predicate Settled(s: State)
    requires Shape(s)
  {
    s.path.Some? && !s.files[s.path.value].exec
  }

  predicate Outsider(p: Point) {
    p.OpenExcl? || p.OpenOld? || p.MapOld? || p.Poll? || p.MagicOld? || p.Joined? ||
    (p.Cleanup? && p.created.None?)
  }

  /** How far the creator at a point has brought its file. */
  predicate Progress(p: Point, f: File) {
    match p
    case MapNew(_) => f.zeroed
    case InitMutex(_) => f.zeroed
    case InitCond(_) => f.zeroed && f.mutexReady
    case SetCount(_) => f.zeroed && f.mutexReady && f.condReady
    case ClearExec(_) => Initialised(f)
    case Cleanup(_, e) => e == EINVAL ==> Initialised(f)
    case _ => true
  }

  ghost predicate ThreadInv(s: State, t: nat)
    requires Shape(s) && t < |s.points|
  {
    var p := s.points[t];
    var r := s.requests[t];
    && (Outsider(p) ==> forall f :: 0 <= f < |s.files| ==> s.files[f].creator != Some(t))
    && (p.OpenExcl? ==> r.creat)
    && (p.OpenOld? || p.MapOld? || p.Poll? || p.MagicOld? || p.Joined? ==> MayJoin(r))
    && (p.MagicOld? || p.Joined? ==> Settled(s))
    && (p.Joined? ==> s.files[p.file].magic)
    && (p.MagicNew? || p.Created? ==>
          s.path == Some(p.file) && s.files[p.file].creator == Some(t) && !s.files[p.file].exec)
    && (p.Created? ==> s.files[p.file].magic)
    && (p.ClearExec? ==> s.files[p.file].count == Some(r.value) && r.value <= s.maxValue)
    && (Building(p).Some? || (p.Cleanup? && p.created.Some?) ==>
          var f := FileOf(p).value;
          && s.path == Some(f) && s.files[f].creator == Some(t) && s.files[f].exec && r.creat
          && Progress(p, s.files[f]))
    && (p.Cleanup? && p.created.Some? ==> Doomed(s, r) && (p.errno == EINVAL || (p.errno == EFAILED && r.faulty)))
  }

  ghost predicate FileInv(s: State, f: nat)
    requires Shape(s) && f < |s.files|
  {
    var file := s.files[f];
    if file.creator.None? then |s.files| == 1 && s.path == Some(f) && (!file.exec ==> Initialised(file)) else
    var c := file.creator.value;
    && c < |s.points| && s.requests[c].creat
    && (s.path == Some(f) ==> FileOf(s.points[c]) == Some(f) && !Outsider(s.points[c]))
    && (s.path != Some(f) ==>
          s.points[c].Failed? && file.exec && Doomed(s, s.requests[c]) &&
          (!Initialised(file) ==> s.requests[c].faulty))
    && (!file.exec ==>
          Initialised(file) && file.count == Some(s.requests[c].value) && s.requests[c].value <= s.maxValue)
  }

  ghost predicate Inv(s: State) {
    && Shape(s)
    && (forall t: nat :: t < |s.points| ==> ThreadInv(s, t))
    && (forall f: nat :: f < |s.files| ==> FileInv(s, f))
  }

  lemma InitInv(s: State)
    requires Init(s)
    ensures Inv(s)
  {
    forall t: nat | t < |s.points| ensures ThreadInv(s, t) {
      assert s.points[t] == Entry(s.requests[t]);
    }
  }

  /** What a step may do to what other callers see: it moves one caller, adds at most
      one file, and removes the path only on behalf of the failing creator of the very
      file it names; to a file created by another it can only add the magic number. */
  ghost predicate Frame(s: State, a: Action, n: State)
    requires Shape(s) && a.t < |s.points|
  {
    && Shape(n)
    && n.requests == s.requests && n.maxValue == s.maxValue
    && n.points == s.points[a.t := n.points[a.t]]
    && PathFrame(s, a, n)
    && FilesFrame(s, a, n)
  }

  ghost predicate PathFrame(s: State, a: Action, n: State)
    requires Shape(s) && a.t < |s.points| == |n.points| == |s.requests|
  {
    && |s.files| <= |n.files| <= |s.files| + 1
    && (|n.files| > |s.files| ==>
          && s.path == None && n.path == Some(|s.files|) && n.files[|s.files|].exec
          && n.files[|s.files|].creator == Some(a.t) && n.points[a.t] == Write(|s.files|) && s.requests[a.t].creat)
    && (|n.files| == |s.files| && n.path != s.path ==>
          && s.path.Some? && n.path.None? && s.points[a.t].Cleanup? && s.points[a.t].created == s.path
          && s.files[s.path.value].creator == Some(a.t) && Doomed(s, s.requests[a.t]))
  }

  ghost predicate FilesFrame(s: State, a: Action, n: State)
    requires a.t < |s.points|
  {
    && |s.files| <= |n.files|
    && (forall f :: 0 <= f < |s.files| ==>
          && n.files[f].creator == s.files[f].creator
          && (n.files[f] == s.files[f] || FileOf(s.points[a.t]) == Some(f))
          && (s.files[f].creator != Some(a.t) ==>
                n.files[f] == s.files[f].(magic := n.files[f].magic) && (s.files[f].magic ==> n.files[f].magic))
          && (s.files[f].exec || !n.files[f].exec)
          && (s.files[f].magic ==> n.files[f].magic))
  }

  lemma StepOnFiles(s: State, a: Action)
    requires Inv(s) && Enabled(s, a)
    ensures FilesFrame(s, a, Do(s, a))
  {
    assert ThreadInv(s, a.t);
    hide Inv, Progress;
  }

  lemma StepOnPath(s: State, a: Action)
    requires Inv(s) && Enabled(s, a)
    ensures PathFrame(s, a, Do(s, a))
  {
    assert ThreadInv(s, a.t);
    hide Inv, Progress;
  }

  lemma StepShape(s: State, a: Action)
    requires Inv(s) && Enabled(s, a)
    ensures Shape(Do(s, a))
  {
    assert ThreadInv(s, a.t);
    var n := Do(s, a);
    forall t | 0 <= t < |n.points| && FileOf(n.points[t]).Some? ensures FileOf(n.points[t]).value < |n.files| {
      if t != a.t {
        assert n.points[t] == s.points[t];
      }
    }
  }

  lemma StepFrame(s: State, a: Action)
    requires Inv(s) && Enabled(s, a)
    ensures Frame(s, a, Do(s, a))
  {
    StepShape(s, a);
    StepOnFiles(s, a);
    StepOnPath(s, a);
    hide FilesFrame, PathFrame, Shape, Inv;
  }

  lemma StepKeepsBuilder(s: State, a: Action)
    requires Inv(s) && Enabled(s, a) && Frame(s, a, Do(s, a))
    requires Building(s.points[a.t]).Some?
    ensures ThreadInv(Do(s, a), a.t)
  {
    assert ThreadInv(s, a.t);
    hide Inv, FilesFrame;
  }

  lemma StepKeepsJoiner(s: State, a: Action)
    requires Inv(s) && Enabled(s, a) && Frame(s, a, Do(s, a))
    requires Building(s.points[a.t]).None?
    ensures ThreadInv(Do(s, a), a.t)
  {
    assert ThreadInv(s, a.t);
    if s.points[a.t].OpenExcl? && s.path.None? {
      assert Do(s, a).files[|s.files|].exec;
    }
  }

  lemma StepKeepsOther(s: State, a: Action, n: State, t: nat)
    requires Inv(s) && a.t < |s.points| && Frame(s, a, n) && t < |s.points| && t != a.t
    ensures ThreadInv(n, t)
  {
    assert ThreadInv(s, a.t) && ThreadInv(s, t);
    if s.path.Some? {
      assert FileInv(s, s.path.value);
    }
  }

  lemma StepKeepsOtherFile(s: State, a: Action, n: State, f: nat)
    requires Inv(s) && a.t < |s.points| && Frame(s, a, n) && f < |s.files| && s.files[f].creator != Some(a.t)
    ensures FileInv(n, f)
  {
    assert FileInv(s, f);
    hide Inv;
  }

  lemma StepKeepsOwnFile(s: State, a: Action, f: nat)
    requires Inv(s) && Enabled(s, a) && Frame(s, a, Do(s, a)) && f < |s.files| && s.files[f].creator == Some(a.t)
    ensures FileInv(Do(s, a), f)
  {
    assert ThreadInv(s, a.t) && FileInv(s, f);
    hide Inv, FilesFrame;
  }

  lemma StepKeepsFile(s: State, a: Action, f: nat)
    requires Inv(s) && Enabled(s, a) && Frame(s, a, Do(s, a)) && f < |Do(s, a).files|
    ensures FileInv(Do(s, a), f)
  {
    if f == |s.files| {
      hide Inv, Do, Enabled;
    } else if s.files[f].creator == Some(a.t) {
      StepKeepsOwnFile(s, a, f);
    } else {
      StepKeepsOtherFile(s, a, Do(s, a), f);
    }
  }

  lemma StepInv(s: State, a: Action)
    requires Inv(s) && Enabled(s, a)
    ensures Inv(Do(s, a)) && Frame(s, a, Do(s, a))
  {
    StepFrame(s, a);
    var n := Do(s, a);
    forall t: nat | t < |n.points| ensures ThreadInv(n, t) {
      if t != a.t {
        StepKeepsOther(s, a, n, t);
      } else if Building(s.points[t]).Some? {
        StepKeepsBuilder(s, a);
      } else {
        StepKeepsJoiner(s, a);
      }
    }
    forall f: nat | f < |n.files| ensures FileInv(n, f) { StepKeepsFile(s, a, f); }
  }

  lemma EveryRunIsInvariant(run: seq<State>)
    requires IsRun(Init, Next, run)
    ensures forall k :: 0 <= k < |run| ==>
      Inv(run[k]) && run[k].requests == run[0].requests && run[k].maxValue == run[0].maxValue
  {
    InitInv(run[0]);
    var n := 0;
    while n + 1 < |run|
      invariant 0 <= n < |run|
      invariant forall k :: 0 <= k <= n ==>
        Inv(run[k]) && run[k].requests == run[0].requests && run[k].maxValue == run[0].maxValue
    {
      assert Next(run[n], run[n + 1]);
      var a :| Enabled(run[n], a) && run[n + 1] == Do(run[n], a);
      StepInv(run[n], a);
      n := n + 1;
    }
  }

  // ----- when no creator can fail

  /** No caller asks for too large a value and no creator's system call fails. */
  predicate Clean(s: State) {
    forall t :: 0 <= t < |s.requests| ==> !Doomed(s, s.requests[t])
  }

  predicate Succeeded(p: Point) { p.Created? || p.Joined? }

  /** The promise of `mysem_open`: one file, one initialiser, and whoever returns a
      mapping returns that of the file at the path, with mutex, condition, count and magic
      number in place. */
  ghost predicate Agreed(s: State)
    requires Shape(s)
  {
    && |s.files| <= 1
    && (forall t :: 0 <= t < |s.points| && Succeeded(s.points[t]) ==>
          && s.path == Some(0) == FileOf(s.points[t])
          && Initialised(s.files[0]) && s.files[0].magic
          && (s.files[0].creator.Some? ==>
                var c := s.files[0].creator.value; c < |s.requests| && s.files[0].count == Some(s.requests[c].value)))
    && (forall t, u :: 0 <= t < |s.points| && 0 <= u < |s.points| && s.points[t].Created? && s.points[u].Created? ==>
          t == u)
    && (forall t :: 0 <= t < |s.points| && Building(s.points[t]).Some? ==>
          |s.files| == 1 && s.files[0].creator == Some(t))
  }

  lemma CleanMeansAgreed(s: State)
    requires Inv(s) && Clean(s)
    ensures Agreed(s)
  {
    forall f: nat | f < |s.files| ensures s.path == Some(f) { assert FileInv(s, f); }
    assert |s.files| >= 2 ==> s.path == Some(0) && s.path == Some(1);
    forall t | 0 <= t < |s.points|
      ensures FileOf(s.points[t]).Some? ==> FileOf(s.points[t]) == Some(0) == s.path && FileInv(s, 0)
      ensures ThreadInv(s, t)
    {
      if FileOf(s.points[t]).Some? {
        assert FileInv(s, 0);
      }
    }
  }

  lemma CleanPoolsAgree(run: seq<State>)
    requires IsRun(Init, Next, run) && Clean(run[0])
    ensures forall k :: 0 <= k < |run| ==> Shape(run[k]) && Agreed(run[k])
  {
    EveryRunIsInvariant(run);
    forall k | 0 <= k < |run| ensures Shape(run[k]) && Agreed(run[k]) {
      assert Inv(run[k]);
      CleanMeansAgreed(run[k]);
    }
  }

  /** If a semaphore is at the path when the calls begin, it stays: nobody creates another,
      nobody removes it, and whoever succeeds gets it, whatever calls can fail. */
  lemma ExistingFileStays(run: seq<State>, k: nat)
    requires IsRun(Init, Next, run) && k < |run| && run[0].path.Some?
    ensures var s := run[k]; Shape(s) && |s.files| == 1 && s.path == Some(0) && Agreed(s)
    ensures forall t :: 0 <= t < |run[k].points| ==> !run[k].points[t].Created?
  {
    EveryRunIsInvariant(run);
    assert WasThere(run[0]);
    hide Do, Enabled, Inv, Init, WasThere;
    var n := 0;
    while n < k
      invariant 0 <= n <= k && WasThere(run[n])
    {
      assert Next(run[n], run[n + 1]);
      var a :| Enabled(run[n], a) && run[n + 1] == Do(run[n], a);
      FirstFileStays(run[n], a);
      n := n + 1;
    }
    TheFileIsAgreed(run[k]);
  }

  /** The first file was there before the calls. */
  predicate WasThere(s: State) { s.files != [] && s.files[0].creator == None }

  lemma FirstFileStays(s: State, a: Action)
    requires Inv(s) && Enabled(s, a) && WasThere(s)
    ensures WasThere(Do(s, a))
  {
    StepOnFiles(s, a);
    hide Do, Inv;
  }

  lemma TheFileIsAgreed(s: State)
    requires Inv(s) && WasThere(s)
    ensures |s.files| == 1 && s.path == Some(0) && Agreed(s)
    ensures forall t :: 0 <= t < |s.points| ==> !s.points[t].Created?
  {
    assert FileInv(s, 0);
    forall t | 0 <= t < |s.points|
      ensures FileOf(s.points[t]).Some? ==> FileOf(s.points[t]) == Some(0) == s.path
      ensures ThreadInv(s, t)
    {
    }
  }

  /** The path is only ever removed by a creator that failed, and only while it names the
      file that creator made; in particular a caller that timed out never removes it. */
  lemma OnlyFailedCreatorsUnlink(run: seq<State>, k: nat)
    requires IsRun(Init, Next, run) && k + 1 < |run|
    requires run[k].path.Some? && run[k + 1].path != run[k].path
    ensures var s := run[k];
      && s.path.value < |s.files|
      && s.files[s.path.value].creator.Some?
      && var c := s.files[s.path.value].creator.value;
         && c < |s.points| == |s.requests| && s.points[c].Cleanup? && s.points[c].created == s.path
         && s.points[c].errno != ETIMEDOUT && Doomed(s, s.requests[c])
         && run[k + 1].points == s.points[c := Failed(s.points[c].errno)]
  {
    EveryRunIsInvariant(run);
    assert Next(run[k], run[k + 1]);
    var a :| Enabled(run[k], a) && run[k + 1] == Do(run[k], a);
    StepInv(run[k], a);
    assert ThreadInv(run[k], a.t);
  }

  // ----- exactly one call initialises

  /** Until a file exists, the calls that may create one are about to, and the others find
      nothing; no file comes from anywhere else. */
  ghost predicate BegunEmpty(s: State)
    requires Shape(s)
  {
    if s.files == [] then
      s.path == None && forall t: nat :: t < |s.points| ==>
        if s.requests[t].creat then s.points[t] == OpenExcl
        else s.points[t] == OpenOld || s.points[t] == Cleanup(None, ENOENT) || s.points[t] == Failed(ENOENT)
    else s.files[0].creator.Some?
  }

  lemma StepBegunEmpty(s: State, a: Action)
    requires Inv(s) && BegunEmpty(s) && Enabled(s, a)
    ensures Shape(Do(s, a)) && BegunEmpty(Do(s, a))
  {
    StepFrame(s, a);
    if s.files != [] {
      hide Do, Inv;
    } else {
      hide Inv, FilesFrame;
    }
  }

  /** Call t has created the one file there is, at the path, and initialised it completely. */
  ghost predicate InitialisedBy(s: State, t: nat)
    requires Shape(s)
  {
    && t < |s.points| && s.points[t] == Created(0) && |s.files| == 1 && s.path == Some(0)
    && (var f := s.files[0]; Initialised(f) && f.magic && !f.exec && f.count == Some(s.requests[t].value))
    && forall u: nat :: u < |s.points| && u != t ==> !s.points[u].Created?
  }

  ghost predicate SomeoneCreates(requests: seq<Request>) {
    exists c: nat :: c < |requests| && requests[c].creat
  }

  /** Exactly one call has initialised the semaphore if any asked to create it, and otherwise
      every call has failed for want of a file. */
  ghost predicate OneInitialised(s: State)
    requires Shape(s)
  {
    if SomeoneCreates(s.requests) then exists t: nat :: InitialisedBy(s, t)
    else s.files == [] && forall t: nat :: t < |s.points| ==> s.points[t] == Failed(ENOENT)
  }

  lemma ReturnedMeansInitialised(s: State)
    requires Inv(s) && Clean(s) && BegunEmpty(s) && AllReturned(s)
    ensures OneInitialised(s)
  {
    CleanMeansAgreed(s);
    if s.files != [] {
      assert FileInv(s, 0);
      var t := s.files[0].creator.value;
      assert ThreadInv(s, t) && s.points[t] == Created(0);
      assert InitialisedBy(s, t);
    }
  }

  /** In every maximal run that begins with no file at the path and in which no creator can
      fail, exactly one call initialises the semaphore, if any call asks to create it. */
  lemma ExactlyOneInitialises(run: seq<State>)
    requires IsRun(Init, Next, run) && Clean(run[0]) && run[0].path == None && Terminal(Last(run))
    ensures Shape(Last(run)) && Last(run).requests == run[0].requests && OneInitialised(Last(run))
  {
    EveryRunIsInvariant(run);
    BeginsEmpty(run[0]);
    hide Do, Enabled, Init, Inv, BegunEmpty, OneInitialised;
    assert Inv(run[0]);
    var n := 0;
    while n + 1 < |run|
      invariant 0 <= n < |run| && Inv(run[n]) && Shape(run[n]) && BegunEmpty(run[n])
    {
      assert Next(run[n], run[n + 1]);
      var a :| Enabled(run[n], a) && run[n + 1] == Do(run[n], a);
      StepBegunEmpty(run[n], a);
      n := n + 1;
    }
    TerminalMeansReturned(Last(run));
    ReturnedMeansInitialised(Last(run));
  }

  lemma BeginsEmpty(s: State)
    requires Init(s) && s.path == None
    ensures Shape(s) && BegunEmpty(s)
  {
    InitInv(s);
    assert forall t :: 0 <= t < |s.points| ==> s.points[t] == Entry(s.requests[t]);
  }

  // ----- what the errors mean

  /** What an error says about the call that gets it. */
  predicate Explained(s: State, r: Request, e: Errno) {
    match e
    case EEXIST => r.creat && r.excl
    case ENOENT => !r.creat
    case EINVAL => r.creat && r.value > s.maxValue
    case ETIMEDOUT => MayJoin(r)
    case EFAILED => r.creat && r.faulty
  }

  /** Every call that is failing or has failed has a reason to. */
  ghost predicate Justified(s: State)
    requires Shape(s)
  {
    forall t: nat :: t < |s.points| ==> PointJustified(s, s.requests[t], s.points[t])
  }

  predicate PointJustified(s: State, r: Request, p: Point) {
    p.Cleanup? || p.Failed? ==> Explained(s, r, p.errno)
  }

  lemma StepExplains(s: State, a: Action)
    requires Inv(s) && Justified(s) && Enabled(s, a)
    ensures var n := Do(s, a); PointJustified(n, n.requests[a.t], n.points[a.t])
  {
    assert ThreadInv(s, a.t) && PointJustified(s, s.requests[a.t], s.points[a.t]);
    hide Inv, Justified;
  }

  lemma StepJustified(s: State, a: Action)
    requires Inv(s) && Justified(s) && Enabled(s, a) && Shape(Do(s, a))
    ensures Justified(Do(s, a))
  {
    StepFrame(s, a);
    StepExplains(s, a);
    hide Do, Inv;
    forall t: nat | t < |Do(s, a).points| ensures PointJustified(Do(s, a), Do(s, a).requests[t], Do(s, a).points[t]) {
      assert PointJustified(s, s.requests[t], s.points[t]);
    }
  }

  /** EEXIST goes only to exclusive creators, ENOENT only to calls without O_CREAT, EINVAL
      only to creators with too large a value, and a time-out only to calls that may join. */
  lemma ErrorsAreExplained(run: seq<State>, k: nat, t: nat)
    requires IsRun(Init, Next, run) && k < |run| && t < |run[k].points| && run[k].points[t].Failed?
    ensures t < |run[0].requests| && run[k].requests == run[0].requests
    ensures Explained(run[k], run[0].requests[t], run[k].points[t].errno)
  {
    EveryRunIsInvariant(run);
    assert Inv(run[k]);
    var n := 0;
    while n < k
      invariant 0 <= n <= k && Inv(run[n]) && Justified(run[n])
    {
      assert Next(run[n], run[n + 1]);
      var a :| Enabled(run[n], a) && run[n + 1] == Do(run[n], a);
      StepJustified(run[n], a);
      n := n + 1;
    }
  }

  // ----- what was seen by whom it happened to

  ghost predicate Step(s: State, a: Action, n: State) {
    Enabled(s, a) && n == Do(s, a)
  }

  /** Call t takes a step in a state that is a reason for an error: its exclusive open finds a
      file, its open or poll finds none, its poll finds the execute bit of the file at the
      path set, it sets the count, or its own system call fails. */
  predicate Sees(s: State, a: Action, t: nat, e: Errno) {
    && Shape(s) && t < |s.points| && a.t == t
    && match e
       case EEXIST => a.Go? && s.points[t].OpenExcl? && s.path.Some?
       case ENOENT => a.Go? && (s.points[t].OpenOld? || s.points[t].Poll?) && s.path.None?
       case ETIMEDOUT => a.Go? && s.points[t].Poll? && s.path.Some? && s.files[s.path.value].exec
       case EINVAL => a.Go? && s.points[t].SetCount?
       case EFAILED => a.Fault?
  }

  /** How often it did so in the first k steps of a trace. */
  function Seen(run: seq<State>, acts: seq<Action>, t: nat, e: Errno, k: nat): nat
    requires k <= |acts| < |run|
  {
    if k == 0 then 0 else Seen(run, acts, t, e, k - 1) + if Sees(run[k - 1], acts[k - 1], t, e) then 1 else 0
  }

  /** How often a caller at a point must have. */
  function Reasons(p: Point, e: Errno): int {
    if (p.Cleanup? || p.Failed?) && p.errno == e then (if e.ETIMEDOUT? then 10 else 1)
    else if p.Poll? && e.ETIMEDOUT? then p.tries
    else 0
  }

  lemma StepHasReason(s: State, a: Action, t: nat, e: Errno)
    requires Enabled(s, a) && t < |s.points|
    ensures var n := Do(s, a);
      t < |n.points| && Reasons(n.points[t], e) <= Reasons(s.points[t], e) + if Sees(s, a, t, e) then 1 else 0
  {
    if a.t != t {
      assert Do(s, a).points[t] == s.points[t];
    }
  }

  lemma {:induction false} ReasonsAreSeen(run: seq<State>, acts: seq<Action>, t: nat, e: Errno, k: nat)
    requires IsTrace(Init, Step, run, acts) && k < |run| && t < |run[0].points|
    ensures t < |run[k].points| && Reasons(run[k].points[t], e) <= Seen(run, acts, t, e, k)
  {
    if k == 0 {
      NoReasonYet(run[0], t, e);
    } else {
      ReasonsAreSeen(run, acts, t, e, k - 1);
      assert Step(run[k - 1], acts[k - 1], run[k]);
      StepHasReason(run[k - 1], acts[k - 1], t, e);
      hide Do, Enabled, Sees, Reasons, Init;
    }
  }

  /** No call fails without a reason it has seen itself; one that timed out has taken ten steps
      in each of which the path named a file whose execute bit was set. */
  lemma ErrorsHaveBeenSeen(run: seq<State>, acts: seq<Action>, t: nat)
    requires IsTrace(Init, Step, run, acts) && t < |run[0].points|
    ensures t < |Last(run).points|
    ensures var p := Last(run).points[t];
      p.Failed? ==> Seen(run, acts, t, p.errno, |acts|) >= if p.errno.ETIMEDOUT? then 10 else 1
  {
    ReasonsAreSeen(run, acts, t, EEXIST, |acts|);
    var p := Last(run).points[t];
    if p.Failed? {
      ReasonsAreSeen(run, acts, t, p.errno, |acts|);
      EnoughReasons(p);
    }
  }

  lemma EnoughReasons(p: Point)
    requires p.Failed?
    ensures Reasons(p, p.errno) == if p.errno.ETIMEDOUT? then 10 else 1
  {
  }

  lemma NoReasonYet(s: State, t: nat, e: Errno)
    requires Init(s) && t < |s.points|
    ensures Reasons(s.points[t], e) == 0
  {
    assert s.points[t] == Entry(s.requests[t]);
  }

  // ----- waiting pays off

  /** A caller that can still come to see the file at the path finished. */
  predicate OnTheWay(p: Point) {
    p.OpenExcl? || p.OpenOld? || p.MapOld? || (p.Poll? && p.tries < 10) || p.MagicOld? || p.Joined?
  }

  /** A caller that has looked for the last time, or has failed. */
  predicate GivenUp(p: Point) {
    (p.Poll? && p.tries >= 10) || (p.Cleanup? && p.created.None?) || p.Failed?
  }

  /** The path names a finished file, and caller t is on its way or has given up. */
  ghost predicate OnCourse(s: State, t: nat, way: bool) {
    && Inv(s) && Settled(s) && t < |s.points| && MayJoin(s.requests[t])
    && if way then OnTheWay(s.points[t]) else GivenUp(s.points[t])
  }

  lemma SettledStays(s: State, a: Action)
    requires Inv(s) && Settled(s) && Enabled(s, a)
    ensures Shape(Do(s, a)) && Settled(Do(s, a))
  {
    StepFrame(s, a);
    assert ThreadInv(s, a.t);
    hide Do, Enabled, Inv;
  }

  lemma StepOnCourse(s: State, a: Action, t: nat, way: bool)
    requires OnCourse(s, t, way) && Enabled(s, a)
    ensures OnCourse(Do(s, a), t, way)
  {
    StepInv(s, a);
    SettledStays(s, a);
    assert ThreadInv(s, t);
    if a.t != t {
      hide Do, Enabled, Inv, Settled;
    } else {
      hide Inv, FilesFrame, PathFrame;
    }
  }

  /** Once the path names a finished file, a caller that has neither created nor given up
      succeeds, and one that has polled ten times in vain already, or failed, does not. */
  lemma JoinsExactlyIfStillLooking(run: seq<State>, j: nat, t: nat)
    requires IsRun(Init, Next, run) && j < |run| && Terminal(Last(run))
    requires Shape(run[j]) && Settled(run[j]) && t < |run[j].points| && MayJoin(run[j].requests[t])
    requires Outsider(run[j].points[t]) || run[j].points[t].Failed?
    ensures t < |Last(run).points|
    ensures if OnTheWay(run[j].points[t]) then Last(run).points[t].Joined? else Last(run).points[t].Failed?
  {
    EveryRunIsInvariant(run);
    var way := OnTheWay(run[j].points[t]);
    assert OnCourse(run[j], t, way);
    hide Do, Enabled, Inv, Init, OnCourse;
    var n := j;
    while n + 1 < |run|
      invariant j <= n < |run| && OnCourse(run[n], t, way)
    {
      assert Next(run[n], run[n + 1]);
      var a :| Enabled(run[n], a) && run[n + 1] == Do(run[n], a);
      StepOnCourse(run[n], a, t, way);
      n := n + 1;
    }
    EndsByWay(Last(run), t, way);
  }

  lemma EndsByWay(s: State, t: nat, way: bool)
    requires OnCourse(s, t, way) && Terminal(s)
    ensures t < |s.points| && if way then s.points[t].Joined? else s.points[t].Failed?
  {
    TerminalMeansReturned(s);
  }

  /** If a finished file is at the path when the calls begin, every call ends with it, except
      those that ask for exclusive creation, which fail with EEXIST. */
  lemma EveryoneJoinsAFinishedFile(run: seq<State>, t: nat)
    requires IsRun(Init, Next, run) && Terminal(Last(run)) && t < |run[0].points|
    requires run[0].path.Some? && run[0].path.value < |run[0].files| && !run[0].files[run[0].path.value].exec
    ensures t < |Last(run).points| && t < |run[0].requests|
    ensures Last(run).points[t] == if MayJoin(run[0].requests[t]) then Joined(0) else Failed(EEXIST)
  {
    InitInv(run[0]);
    EveryRunIsInvariant(run);
    ExistingFileStays(run, |run| - 1);
    assert run[0].points[t] == Entry(run[0].requests[t]);
    if MayJoin(run[0].requests[t]) {
      JoinsExactlyIfStillLooking(run, 0, t);
    } else {
      RefusedExclusively(run, t);
    }
  }

  /** An exclusive creator fails at once if a file is there. */
  lemma RefusedExclusively(run: seq<State>, t: nat)
    requires IsRun(Init, Next, run) && Terminal(Last(run)) && t < |run[0].points|
    requires run[0].path.Some? && t < |run[0].requests| && !MayJoin(run[0].requests[t])
    ensures t < |Last(run).points| && Last(run).points[t] == Failed(EEXIST)
  {
    EveryRunIsInvariant(run);
    assert run[0].points[t] == Entry(run[0].requests[t]);
    var n := 0;
    while n + 1 < |run|
      invariant 0 <= n < |run| && t < |run[n].points|
      invariant run[n].points[t] == OpenExcl || run[n].points[t] == Failed(EEXIST)
    {
      ExistingFileStays(run, n);
      assert Next(run[n], run[n + 1]);
      var a :| Enabled(run[n], a) && run[n + 1] == Do(run[n], a);
      StillExclusive(run[n], a, t);
      n := n + 1;
    }
    TerminalMeansReturned(Last(run));
  }

  lemma StillExclusive(s: State, a: Action, t: nat)
    requires Inv(s) && Enabled(s, a) && t < |s.points| && s.path.Some? && !MayJoin(s.requests[t])
    requires s.points[t] == OpenExcl || s.points[t] == Failed(EEXIST)
    ensures t < |Do(s, a).points|
    ensures Do(s, a).points[t] == OpenExcl || Do(s, a).points[t] == Failed(EEXIST)
  {
    if a.t != t {
      assert Do(s, a).points[t] == s.points[t];
    }
    hide Inv;
  }

  // ----- when a creator can fail

  /** A caller holds the mapping of a file the path does not name. */
  predicate Orphan(s: State, t: nat) {
    t < |s.points| && Succeeded(s.points[t]) && FileOf(s.points[t]) != s.path
  }

  /** A caller holds a mapping whose mutex, condition or count was never set. */
  predicate Raw(s: State, t: nat) {
    t < |s.points| && Succeeded(s.points[t])
    && FileOf(s.points[t]).value < |s.files| && !Initialised(s.files[FileOf(s.points[t]).value])
  }

  ghost predicate Reaches(bad: (State, nat) -> bool, requests: seq<Request>, maxValue: int) {
    exists run, t :: IsRun(Init, Next, run) && EndsBadly(bad, run, t, requests, maxValue)
  }

  ghost predicate EndsBadly(bad: (State, nat) -> bool, run: seq<State>, t: nat, requests: seq<Request>, maxValue: int) {
    |run| > 0 && run[0].requests == requests && run[0].maxValue == maxValue && bad(Last(run), t)
  }

  /** Three different calls: a creator that fails, a caller that joins it, and a creator
      that completes. */
  ghost predicate Trio(requests: seq<Request>, maxValue: int, a: nat, b: nat, c: nat) {
    && a < |requests| && b < |requests| && c < |requests| && a != b && b != c && a != c
    && MayFail(requests[a], maxValue)
    && MayJoin(requests[b])
    && requests[c].creat && requests[c].value <= maxValue
  }

  lemma OrphansNeedATrio(s: State, t: nat) returns (a: nat, c: nat)
    requires Inv(s) && Orphan(s, t)
    ensures Trio(s.requests, s.maxValue, a, t, c)
    ensures Raw(s, t) ==> s.requests[a].faulty
  {
    assert ThreadInv(s, t);
    var f, g := FileOf(s.points[t]).value, s.path.value;
    assert FileInv(s, f) && FileInv(s, g);
    a, c := s.files[f].creator.value, s.files[g].creator.value;
  }

  lemma RawIsOrphan(s: State, t: nat)
    requires Inv(s) && Raw(s, t)
    ensures Orphan(s, t)
  {
    assert ThreadInv(s, t);
    var f := FileOf(s.points[t]).value;
    assert FileInv(s, f);
  }

  /** A caller opens and maps the file at the path. */
  lemma Map(run: seq<State>, b: nat) returns (longer: seq<State>)
    requires IsRun(Init, Next, run)
    requires var s := Last(run);
      Shape(s) && b < |s.points| && s.points[b] == OpenOld && s.path.Some?
    ensures IsRun(Init, Next, longer) && longer[0] == run[0]
    ensures var (s, n) := (Last(run), Last(longer));
      n == Move(s, b, Poll(s.path.value, 0)) && Shape(n)
  {
    var s := Last(run);
    longer := Extend(Init, Next, run, Do(Last(run), Go(b)));
    longer := Extend(Init, Next, longer, Do(Last(longer), Go(b)));
    assert Last(longer).points == s.points[b := Poll(s.path.value, 0)];
  }

  /** A caller that may join reaches the polling loop for the file at the path. */
  lemma JoinEarly(run: seq<State>, b: nat) returns (longer: seq<State>)
    requires IsRun(Init, Next, run)
    requires var s := Last(run);
      Shape(s) && b < |s.points| && s.points[b] == Entry(s.requests[b]) && MayJoin(s.requests[b]) && s.path.Some?
    ensures IsRun(Init, Next, longer) && longer[0] == run[0]
    ensures var (s, n) := (Last(run), Last(longer));
      n == Move(s, b, Poll(s.path.value, 0)) && Shape(n)
  {
    var s := Last(run);
    if s.requests[b].creat {
      longer := Extend(Init, Next, run, Do(Last(run), Go(b)));
      assert Last(longer) == Move(s, b, OpenOld);
      longer := Map(longer, b);
      assert Last(longer).points == s.points[b := Poll(s.path.value, 0)];
    } else {
      longer := Map(run, b);
    }
  }

  /** A caller finds no file at the path and creates one. */
  lemma Create(run: seq<State>, a: nat) returns (longer: seq<State>)
    requires IsRun(Init, Next, run)
    requires var s := Last(run);
      Shape(s) && a < |s.points| && s.points[a] == OpenExcl && s.path == None
    ensures IsRun(Init, Next, longer) && longer[0] == run[0]
    ensures var (s, n) := (Last(run), Last(longer));
      && Shape(n) && n.requests == s.requests && n.maxValue == s.maxValue
      && n.path == Some(|s.files|)
      && n.files == s.files + [File(true, false, false, false, None, false, Some(a))]
      && n.points == s.points[a := Write(|s.files|)]
  {
    longer := Extend(Init, Next, run, Do(Last(run), Go(a)));
    var (s, n) := (Last(run), Last(longer));
    forall t | 0 <= t < |n.points| && FileOf(n.points[t]).Some? ensures FileOf(n.points[t]).value < |n.files| {
      if t != a { assert n.points[t] == s.points[t]; }
    }
  }

  /** A creator writes and maps its file. */
  lemma WriteAndMap(run: seq<State>, a: nat, f: nat) returns (longer: seq<State>)
    requires IsRun(Init, Next, run)
    requires var s := Last(run); Shape(s) && a < |s.points| && s.points[a] == Write(f)
    ensures IsRun(Init, Next, longer) && longer[0] == run[0]
    ensures var (s, n) := (Last(run), Last(longer));
      && f < |s.files| && Shape(n)
      && n == s.(files := s.files[f := s.files[f].(zeroed := true)], points := s.points[a := InitMutex(f)])
  {
    var s := Last(run);
    assert FileOf(s.points[a]) == Some(f);
    longer := Extend(Init, Next, run, Do(s, Go(a)));
    longer := Extend(Init, Next, longer, Do(Last(longer), Go(a)));
    assert Last(longer).points == s.points[a := InitMutex(f)];
  }

  /** A creator writes and maps its file and initialises mutex and condition. */
  lemma Build(run: seq<State>, a: nat, f: nat) returns (longer: seq<State>)
    requires IsRun(Init, Next, run)
    requires var s := Last(run); Shape(s) && a < |s.points| && s.points[a] == Write(f)
    ensures IsRun(Init, Next, longer) && longer[0] == run[0]
    ensures var (s, n) := (Last(run), Last(longer));
      && Shape(n) && n.requests == s.requests && n.maxValue == s.maxValue && n.path == s.path
      && f < |s.files| && n.files == s.files[f := s.files[f].(zeroed := true, mutexReady := true, condReady := true)]
      && n.points == s.points[a := SetCount(f)]
  {
    var s := Last(run);
    longer := WriteAndMap(run, a, f);
    assert FileOf(Last(longer).points[a]) == Some(f);
    longer := Extend(Init, Next, longer, Do(Last(longer), Go(a)));
    longer := Extend(Init, Next, longer, Do(Last(longer), Go(a)));
    assert Last(longer).points == s.points[a := SetCount(f)];
  }

  /** A creator is about to fail. */
  lemma Stumble(run: seq<State>, a: nat, f: nat) returns (longer: seq<State>)
    requires IsRun(Init, Next, run)
    requires var s := Last(run);
      && Shape(s) && a < |s.points| && s.points[a] == Write(f) && Doomed(s, s.requests[a])
      && f < |s.files| && !s.files[f].mutexReady
    ensures IsRun(Init, Next, longer) && longer[0] == run[0]
    ensures var (s, n) := (Last(run), Last(longer));
      && Shape(n) && n.requests == s.requests && n.maxValue == s.maxValue
      && |n.files| == |s.files| && (s.requests[a].faulty ==> !n.files[f].mutexReady)
      && n.points == s.points[a := Cleanup(Some(f), if s.requests[a].faulty then EFAILED else EINVAL)]
  {
    var s := Last(run);
    if s.requests[a].faulty {
      longer := Extend(Init, Next, run, Do(Last(run), Fault(a)));
    } else {
      longer := Build(run, a, f);
      longer := Extend(Init, Next, longer, Do(Last(longer), Go(a)));
    }
    assert Last(longer).points == s.points[a := Cleanup(Some(f), if s.requests[a].faulty then EFAILED else EINVAL)];
  }

  /** A creator fails and takes the path away. */
  lemma GiveUp(run: seq<State>, a: nat, f: nat) returns (longer: seq<State>)
    requires IsRun(Init, Next, run)
    requires var s := Last(run);
      && Shape(s) && a < |s.points| && s.points[a] == Write(f) && Doomed(s, s.requests[a])
      && f < |s.files| && !s.files[f].mutexReady
    ensures IsRun(Init, Next, longer) && longer[0] == run[0]
    ensures var (s, n) := (Last(run), Last(longer));
      && Shape(n) && n.requests == s.requests && n.maxValue == s.maxValue && n.path == None
      && |n.files| == |s.files| && f < |n.files| && (s.requests[a].faulty ==> !n.files[f].mutexReady)
      && n.points == s.points[a := Failed(if s.requests[a].faulty then EFAILED else EINVAL)]
  {
    var s := Last(run);
    longer := Stumble(run, a, f);
    longer := Extend(Init, Next, longer, Do(Last(longer), Go(a)));
    assert Last(longer).points == s.points[a := Failed(if s.requests[a].faulty then EFAILED else EINVAL)];
  }

  /** A creator with an acceptable value completes the initialisation. */
  lemma Complete(run: seq<State>, c: nat, f: nat) returns (longer: seq<State>)
    requires IsRun(Init, Next, run)
    requires var s := Last(run);
      Shape(s) && c < |s.points| && s.points[c] == Write(f) && s.requests[c].value <= s.maxValue
    ensures IsRun(Init, Next, longer) && longer[0] == run[0]
    ensures var (s, n) := (Last(run), Last(longer));
      && Shape(n) && n.requests == s.requests && n.maxValue == s.maxValue && n.path == s.path
      && f < |s.files| == |n.files| && !n.files[f].exec
      && (forall g :: 0 <= g < |s.files| && g != f ==> n.files[g] == s.files[g])
      && n.points == s.points[c := MagicNew(f)]
  {
    var s := Last(run);
    longer := Build(run, c, f);
    longer := Extend(Init, Next, longer, Do(Last(longer), Go(c)));
    longer := Extend(Init, Next, longer, Do(Last(longer), Go(c)));
    assert Last(longer).points == s.points[c := MagicNew(f)];
  }

  /** A poll sees the bit of the file at the path clear and returns the mapping it has. */
  lemma JoinLate(run: seq<State>, b: nat, f: nat) returns (longer: seq<State>)
    requires IsRun(Init, Next, run)
    requires var s := Last(run);
      Shape(s) && Settled(s) && b < |s.points| && s.points[b] == Poll(f, 0)
    ensures IsRun(Init, Next, longer) && longer[0] == run[0]
    ensures var (s, n) := (Last(run), Last(longer));
      && f < |s.files| == |n.files| && n.files[f] == s.files[f].(magic := true)
      && n.path == s.path && n.points == s.points[b := Joined(f)]
  {
    var s := Last(run);
    assert FileOf(s.points[b]) == Some(f);
    longer := Extend(Init, Next, run, Do(Last(run), Go(b)));
    longer := Extend(Init, Next, longer, Do(Last(longer), Go(b)));
    assert Last(longer).points == s.points[b := Joined(f)];
  }

  /** b maps the file that a is initialising, a fails and removes the path, and c creates a
      second file there. */
  lemma TriosMeet(requests: seq<Request>, maxValue: int, a: nat, b: nat, c: nat) returns (run: seq<State>)
    requires Trio(requests, maxValue, a, b, c)
    ensures IsRun(Init, Next, run) && run[0].requests == requests && run[0].maxValue == maxValue
    ensures var s := Last(run);
      && Shape(s) && s.requests == requests && s.maxValue == maxValue && |s.files| == 2 && s.path == Some(1)
      && s.points[b] == Poll(0, 0) && s.points[c] == Write(1)
      && (requests[a].faulty ==> !s.files[0].mutexReady)
  {
    hide Do, Enabled, Next, IsRun;
    run := Start(requests, maxValue);
    run := Create(run, a);
    run := JoinEarly(run, b);
    run := GiveUp(run, a, 0);
    run := Create(run, c);
  }

  lemma Start(requests: seq<Request>, maxValue: int) returns (run: seq<State>)
    ensures IsRun(Init, Next, run) && run[0].requests == requests && run[0].maxValue == maxValue && run[0].path == None
    ensures var s := Last(run);
      && Shape(s) && s.requests == requests && s.maxValue == maxValue && s.files == [] && s.path == None
      && forall t :: 0 <= t < |s.points| ==> s.points[t] == Entry(requests[t])
  {
    var points := seq(|requests|, t requires 0 <= t < |requests| => Entry(requests[t]));
    run := [State(requests, maxValue, [], None, points)];
  }

  /** c completes its file, and b's poll, which goes by the path name, is satisfied by it
      while b keeps the mapping of the first file. */
  lemma TriosSplit(requests: seq<Request>, maxValue: int, a: nat, b: nat, c: nat) returns (run: seq<State>)
    requires Trio(requests, maxValue, a, b, c)
    ensures IsRun(Init, Next, run) && run[0].requests == requests && run[0].maxValue == maxValue
    ensures Orphan(Last(run), b)
    ensures requests[a].faulty ==> Raw(Last(run), b)
  {
    hide Do, Enabled, Next;
    run := TriosMeet(requests, maxValue, a, b, c);
    run := Complete(run, c, 1);
    run := JoinLate(run, b, 0);
  }

  /** Two callers can come away with different semaphores exactly when a failing creator
      can meet a joiner and a second creator. */
  lemma SplitsExactlyWithATrio(requests: seq<Request>, maxValue: int)
    ensures Reaches(Orphan, requests, maxValue) <==> exists a: nat, b: nat, c: nat :: Trio(requests, maxValue, a, b, c)
  {
    if a: nat, b: nat, c: nat :| Trio(requests, maxValue, a, b, c) {
      var run := TriosSplit(requests, maxValue, a, b, c);
      assert EndsBadly(Orphan, run, b, requests, maxValue);
    }
    if Reaches(Orphan, requests, maxValue) {
      var run, t :| IsRun(Init, Next, run) && EndsBadly(Orphan, run, t, requests, maxValue);
      EveryRunIsInvariant(run);
      var a, c := OrphansNeedATrio(Last(run), t);
      assert Trio(requests, maxValue, a, t, c);
    }
  }

  /** A caller can come away with an uninitialised semaphore exactly when such a trio's
      first creator fails in a system call; an oversized value alone never does it. */
  lemma RawExactlyWithAFaultyTrio(requests: seq<Request>, maxValue: int)
    ensures Reaches(Raw, requests, maxValue) <==>
      exists a: nat, b: nat, c: nat :: Trio(requests, maxValue, a, b, c) && requests[a].faulty
  {
    if a: nat, b: nat, c: nat :| Trio(requests, maxValue, a, b, c) && requests[a].faulty {
      var run := TriosSplit(requests, maxValue, a, b, c);
      assert EndsBadly(Raw, run, b, requests, maxValue);
    }
    if Reaches(Raw, requests, maxValue) {
      var run, t :| IsRun(Init, Next, run) && EndsBadly(Raw, run, t, requests, maxValue);
      EveryRunIsInvariant(run);
      RawIsOrphan(Last(run), t);
      var a, c := OrphansNeedATrio(Last(run), t);
      assert Trio(requests, maxValue, a, t, c);
    }
  }

  // ----- when an initialiser is certain

  ghost predicate AlwaysInitialises(requests: seq<Request>, maxValue: int) {
    forall run :: IsRun(Init, Next, run) && EndsFrom(run, requests, maxValue) ==> SomeoneCreated(Last(run))
  }

  /** A maximal run of these calls that begins with no file at the path. */
  ghost predicate EndsFrom(run: seq<State>, requests: seq<Request>, maxValue: int) {
    && |run| > 0 && run[0].requests == requests && run[0].maxValue == maxValue && run[0].path == None
    && Terminal(Last(run))
  }

  ghost predicate SomeoneCreated(s: State) {
    exists t: nat :: t < |s.points| && s.points[t].Created?
  }

  /** The semaphore is certain to be initialised exactly if some call asks to create it and no
      call that may create it can fail afterwards: a creator that fails late can make all
      the others give up first. */
  lemma InitialisedForSureExactlyWhenClean(requests: seq<Request>, maxValue: int)
    ensures AlwaysInitialises(requests, maxValue) <==>
      SomeoneCreates(requests) && forall t :: 0 <= t < |requests| ==> !MayFail(requests[t], maxValue)
  {
    var run := Start(requests, maxValue);
    if a: nat :| a < |requests| && MayFail(requests[a], maxValue) {
      run := EveryoneFails(requests, maxValue, a);
      assert EndsFrom(run, requests, maxValue) && !SomeoneCreated(Last(run));
    } else if !SomeoneCreates(requests) {
      run := Finish(run);
      ExactlyOneInitialises(run);
      assert EndsFrom(run, requests, maxValue) && !SomeoneCreated(Last(run));
    } else {
      forall run | IsRun(Init, Next, run) && EndsFrom(run, requests, maxValue) ensures SomeoneCreated(Last(run)) {
        ExactlyOneInitialises(run);
        var t: nat :| InitialisedBy(Last(run), t);
      }
    }
  }

  /** Every run can be continued to its end. */
  lemma Finish(run: seq<State>) returns (longer: seq<State>)
    requires IsRun(Init, Next, run)
    ensures IsRun(Init, Next, longer) && longer[0] == run[0] && Terminal(Last(longer))
    decreases Measure(Last(run))
  {
    longer := run;
    EveryRunIsInvariant(run);
    var s := Last(run);
    assert Inv(s);
    hide Do, Enabled, Init, Inv, Measure;
    if a :| Enabled(s, a) {
      StepProgresses(s, a);
      MeasureNonneg(Do(s, a));
      longer := Extend(Init, Next, run, Do(s, a));
      longer := Finish(longer);
    }
  }

  /** One poll of a file that stays unfinished. */
  lemma PollOnce(s: State, b: nat)
    requires Shape(s) && s.path.Some? && s.files[s.path.value].exec && b < |s.points| && s.points[b].Poll?
    ensures var (n, f, tries) := (Do(s, Go(b)), s.points[b].file, s.points[b].tries);
      && n == s.(points := s.points[b := if tries >= MAX_TRIES then Cleanup(None, ETIMEDOUT) else Poll(f, tries + 1)])
      && Shape(n)
  {
    assert FileOf(s.points[b]).Some?;
    ShapeFrame(s, Do(s, Go(b)), b);
  }

  lemma FailAtLast(s: State, b: nat, e: Errno)
    requires Shape(s) && b < |s.points| && s.points[b] == Cleanup(None, e)
    ensures Do(s, Go(b)) == s.(points := s.points[b := Failed(e)]) && Shape(Do(s, Go(b)))
  {
    ShapeFrame(s, Do(s, Go(b)), b);
  }

  /** A caller polls a file that stays unfinished until it gives up, after ten polls and two
      more statements. */
  lemma PollInVain(run: seq<State>, b: nat) returns (longer: seq<State>)
    requires IsRun(Init, Next, run)
    requires var s := Last(run);
      && Shape(s) && s.path.Some? && s.files[s.path.value].exec
      && b < |s.points| && s.points[b].Poll? && s.points[b].tries <= MAX_TRIES
    ensures IsRun(Init, Next, longer) && longer[0] == run[0]
    ensures var s := Last(run); Last(longer) == s.(points := s.points[b := Failed(ETIMEDOUT)]) && Shape(Last(longer))
    ensures |longer| == |run| + (10 - Last(run).points[b].tries) + 2
    decreases MAX_TRIES - Last(run).points[b].tries
  {
    var s := Last(run);
    assert Enabled(s, Go(b));
    PollOnce(s, b);
    var n := Do(s, Go(b));
    longer := Extend(Init, Next, run, n);
    if s.points[b].tries < MAX_TRIES {
      hide Do, Enabled, Shape;
      longer := PollInVain(longer, b);
    } else {
      assert Enabled(n, Go(b));
      FailAtLast(n, b, ETIMEDOUT);
      hide Do, Enabled, Shape;
      longer := Extend(Init, Next, longer, Do(n, Go(b)));
    }
    assert Last(longer).points == s.points[b := Failed(ETIMEDOUT)];
  }

  lemma ShapeFrame(s: State, n: State, b: nat)
    requires Shape(s) && b < |s.points| && n == s.(points := n.points) && |n.points| == |s.points|
    requires forall t :: 0 <= t < |s.points| && t != b ==> n.points[t] == s.points[t]
    requires FileOf(n.points[b]).Some? ==> FileOf(n.points[b]).value < |s.files|
    ensures Shape(n)
  {
  }

  /** A caller that comes while the file at the path is unfinished, and stays so, fails. */
  lemma FailEarly(run: seq<State>, b: nat) returns (longer: seq<State>)
    requires IsRun(Init, Next, run)
    requires var s := Last(run);
      && Shape(s) && s.path.Some? && s.files[s.path.value].exec
      && b < |s.points| && s.points[b] == Entry(s.requests[b])
    ensures IsRun(Init, Next, longer) && longer[0] == run[0]
    ensures var (s, n) := (Last(run), Last(longer));
      && Shape(n) && |n.points| == |s.points| && n == s.(points := s.points[b := n.points[b]])
      && n.points[b].Failed?
  {
    var s := Last(run);
    if MayJoin(s.requests[b]) {
      longer := JoinEarly(run, b);
      longer := PollInVain(longer, b);
      assert Last(longer).points == s.points[b := Failed(ETIMEDOUT)];
    } else {
      longer := Extend(Init, Next, run, Do(s, Go(b)));
      ShapeFrame(s, Last(longer), b);
    }
  }

  /** While a keeps its file unfinished, the calls from b on fail one after the other. */
  lemma OthersFail(run: seq<State>, a: nat, b: nat) returns (longer: seq<State>)
    requires IsRun(Init, Next, run)
    requires var s := Last(run);
      && Shape(s) && s.path.Some? && s.files[s.path.value].exec && a < |s.points| && b <= |s.points|
      && forall t: nat :: t < |s.points| && t != a ==>
           if t < b then s.points[t].Failed? else s.points[t] == Entry(s.requests[t])
    ensures IsRun(Init, Next, longer) && longer[0] == run[0]
    ensures var (s, n) := (Last(run), Last(longer));
      && Shape(n) && |n.points| == |s.points| && n == s.(points := n.points) && n.points[a] == s.points[a]
      && forall t: nat :: t < |s.points| && t != a ==> n.points[t].Failed?
    decreases |Last(run).points| - b
  {
    longer := run;
    if b < |Last(run).points| {
      if b != a {
        longer := FailEarly(run, b);
      }
      longer := OthersFail(longer, a, b + 1);
    }
  }

  /** Call a creates a file, the others fail over it, and a fails last. */
  lemma EveryoneFails(requests: seq<Request>, maxValue: int, a: nat) returns (run: seq<State>)
    requires a < |requests| && MayFail(requests[a], maxValue)
    ensures IsRun(Init, Next, run) && run[0].requests == requests && run[0].maxValue == maxValue && run[0].path == None
    ensures Terminal(Last(run)) && !SomeoneCreated(Last(run))
  {
    hide Do, Next, IsRun;
    run := Start(requests, maxValue);
    run := Create(run, a);
    run := OthersFail(run, a, 0);
    run := GiveUp(run, a, 0);
  }

  // ----- every call returns

  /** Calls that may still remove the path. */
  function CanUnlink(p: Point): int {
    if Finished(p) || (p.Cleanup? && p.created.None?) then 0 else 1
  }

  /** Steps to the end of a call while the path names a file. */
  function Rank(p: Point): int {
    match p
    case OpenExcl => 16
    case Write(_) => 8 case MapNew(_) => 7 case InitMutex(_) => 6 case InitCond(_) => 5
    case SetCount(_) => 4 case ClearExec(_) => 2 case MagicNew(_) => 1
    case OpenOld => 15 case MapOld(_) => 14
    case Poll(_, tries) => if tries <= MAX_TRIES then 13 - tries else 3
    case MagicOld(_) => 2
    case Cleanup(_, _) => 1
    case Created(_) => 0 case Joined(_) => 0 case Failed(_) => 0
  }

  /** The same while it does not: a joiner may have to start over. */
  function RankGone(p: Point): int {
    match p
    case OpenOld => 17 case MapOld(_) => 18 case Poll(_, _) => 17
    case _ => Rank(p)
  }

  function Work(s: State): int {
    if s.path.Some? then Sum(Rank, s.points) else Sum(RankGone, s.points)
  }

  function Measure(s: State): int {
    20 * |s.points| * Sum(CanUnlink, s.points) + Work(s)
  }

  lemma {:induction false} RanksAreClose(ps: seq<Point>)
    ensures 0 <= Sum(Rank, ps) <= Sum(RankGone, ps) <= Sum(Rank, ps) + 14 * |ps|
  {
    if ps != [] {
      RanksAreClose(ps[1..]);
    }
  }

  /** What a step does to the ranks of the caller that takes it. */
  lemma StepLowersRank(s: State, a: Action)
    requires Inv(s) && Enabled(s, a)
    ensures var n := Do(s, a);
      var (p, q) := (s.points[a.t], n.points[a.t]);
      && n.points == s.points[a.t := q]
      && 0 <= CanUnlink(q) <= CanUnlink(p)
      && (s.path.Some? && n.path.Some? ==> Rank(q) < Rank(p))
      && (s.path.None? && n.path.None? ==> RankGone(q) < RankGone(p))
      && (s.path.None? && n.path.Some? ==> Rank(q) < Rank(p) == RankGone(p))
      && (s.path.Some? && n.path.None? ==> CanUnlink(q) < CanUnlink(p) && Rank(q) < Rank(p))
  {
    assert ThreadInv(s, a.t);
  }

  /** Losing one caller that can unlink pays for every joiner that has to start over. */
  lemma UnlinkPays(price: nat, before: int, after: int)
    requires after <= before
    ensures price * after <= price * before
    ensures after < before ==> price * after + price <= price * before
  {
    var d := before - after;
    assert price * before == price * after + price * d;
    if d > 0 {
      assert price * d == price * (d - 1) + price;
    }
  }

  lemma StepProgresses(s: State, a: Action)
    requires Inv(s) && Enabled(s, a)
    ensures Measure(Do(s, a)) < Measure(s)
  {
    StepLowersRank(s, a);
    var n := Do(s, a);
    hide Sum, Do, Enabled, Rank, RankGone;
    var q := n.points[a.t];
    SumUpdate(CanUnlink, s.points, a.t, q);
    SumUpdate(Rank, s.points, a.t, q);
    SumUpdate(RankGone, s.points, a.t, q);
    RanksAreClose(s.points);
    RanksAreClose(n.points);
    UnlinkPays(20 * |s.points|, Sum(CanUnlink, s.points), Sum(CanUnlink, n.points));
  }

  lemma MeasureNonneg(s: State)
    ensures Measure(s) >= 0
  {
    RanksAreClose(s.points);
    SumNonneg(CanUnlink, s.points);
    assert 20 * |s.points| * Sum(CanUnlink, s.points) >= 0;
  }

  lemma {:induction false} RankAtStart(ps: seq<Point>)
    requires forall t :: 0 <= t < |ps| ==> ps[t].OpenExcl? || ps[t].OpenOld?
    ensures Sum(RankGone, ps) <= 17 * |ps|
  {
    if ps != [] {
      RankAtStart(ps[1..]);
    }
  }

  lemma MeasureAtStart(s: State)
    requires Init(s)
    ensures Measure(s) <= 20 * |s.points| * |s.points| + 17 * |s.points|
  {
    SumConstant(CanUnlink, s.points, 1);
    RankAtStart(s.points);
    RanksAreClose(s.points);
  }

  lemma TerminalMeansReturned(s: State)
    requires Inv(s) && Terminal(s)
    ensures AllReturned(s)
  {
    forall t | 0 <= t < |s.points| ensures Finished(s.points[t]) {
      assert !Enabled(s, Go(t));
    }
  }

  /** Neither `goto again` nor the polling loop runs for ever: every run is bounded by the
      square of the number of calls, and when no call can move every call has returned. */
  lemma EveryCallReturns(run: seq<State>)
    requires IsRun(Init, Next, run)
    ensures var calls := |run[0].requests|; |run| <= 20 * calls * calls + 17 * calls + 1
    ensures Terminal(Last(run)) ==> |Last(run).points| == |run[0].requests| && AllReturned(Last(run))
  {
    forall s | Init(s) ensures Inv(s) { InitInv(s); }
    forall s, t | Inv(s) && Next(s, t) ensures Inv(t) && Measure(t) < Measure(s) {
      var a :| Enabled(s, a) && t == Do(s, a);
      StepInv(s, a);
      StepProgresses(s, a);
    }
    forall s | Inv(s) ensures Measure(s) >= 0 { MeasureNonneg(s); }
    Finiteness(Init, Next, Inv, Measure, run);
    MeasureAtStart(run[0]);
    EveryRunIsInvariant(run);
    assert Inv(Last(run));
    if Terminal(Last(run)) {
      TerminalMeansReturned(Last(run));
    }
  }

  // ----- the program

  /** The file system as the concurrent calls of `mysem_open` for one path see it. */
  class Calls {
    const requests: seq<Request>
    const maxValue: int
    var files: seq<File>
    var path: Option<nat>
    var points: seq<Point>

    function View(): State
      reads this
    {
      State(requests, maxValue, files, path, points)
    }

    /** Calls about to start, with the file left at the path before, if there is one. */
    constructor (requests: seq<Request>, maxValue: int, existing: Option<File>)
      requires existing.Some? ==>
        existing.value.creator == None && (!existing.value.exec ==> Initialised(existing.value))
      ensures Init(View()) && this.requests == requests && this.maxValue == maxValue
      ensures files == if existing.Some? then [existing.value] else []
    {
      this.requests, this.maxValue := requests, maxValue;
      files, path := if existing.Some? then [existing.value] else [], if existing.Some? then Some(0) else None;
      points := seq(|requests|, t requires 0 <= t < |requests| => Entry(requests[t]));
    }

    /** One statement of the part of a call that creates and initialises the file. */
    method Initialise(t: nat)
      requires Enabled(View(), Go(t))
      requires Building(points[t]).Some? || points[t].OpenExcl? || points[t].MagicNew?
      modifies this
      ensures View() == Do(old(View()), Go(t))
    {
      match points[t]
      case OpenExcl =>
        if path.None? {
          points := points[t := Write(|files|)];
          path := Some(|files|);
          files := files + [File(true, false, false, false, None, false, Some(t))];
        } else if requests[t].excl {
          points := points[t := Failed(EEXIST)];
        } else {
          points := points[t := OpenOld];
        }
      case Write(f) =>
        files, points := files[f := files[f].(zeroed := true)], points[t := MapNew(f)];
      case MapNew(f) =>
        points := points[t := InitMutex(f)];
      case InitMutex(f) =>
        files, points := files[f := files[f].(mutexReady := true)], points[t := InitCond(f)];
      case InitCond(f) =>
        files, points := files[f := files[f].(condReady := true)], points[t := SetCount(f)];
      case SetCount(f) =>
        files := files[f := files[f].(count := Some(requests[t].value))];
        if requests[t].value > maxValue {
          points := points[t := Cleanup(Some(f), EINVAL)];
        } else {
          points := points[t := ClearExec(f)];
        }
      case ClearExec(f) =>
        files, points := files[f := files[f].(exec := false)], points[t := MagicNew(f)];
      case MagicNew(f) =>
        files, points := files[f := files[f].(magic := true)], points[t := Created(f)];
    }

    /** One statement of the part of a call that opens an existing file and polls it. */
    method Join(t: nat)
      requires Enabled(View(), Go(t))
      requires points[t].OpenOld? || points[t].MapOld? || points[t].Poll? || points[t].MagicOld?
      modifies this
      ensures View() == Do(old(View()), Go(t))
    {
      match points[t]
      case OpenOld =>
        if path.Some? {
          points := points[t := MapOld(path.value)];
        } else if requests[t].creat {
          points := points[t := OpenExcl];
        } else {
          points := points[t := Cleanup(None, ENOENT)];
        }
      case MapOld(f) =>
        points := points[t := Poll(f, 0)];
      case Poll(f, tries) =>
        if tries >= MAX_TRIES {
          points := points[t := Cleanup(None, ETIMEDOUT)];
        } else if path.None? {
          if requests[t].creat {
            points := points[t := OpenExcl];
          } else {
            points := points[t := Cleanup(None, ENOENT)];
          }
        } else if files[path.value].exec {
          points := points[t := Poll(f, tries + 1)];
        } else {
          points := points[t := MagicOld(f)];
        }
      case MagicOld(f) =>
        files, points := files[f := files[f].(magic := true)], points[t := Joined(f)];
    }

    /** The common failure exit. */
    method Fail(t: nat)
      requires Enabled(View(), Go(t)) && points[t].Cleanup?
      modifies this
      ensures View() == Do(old(View()), Go(t))
    {
      if points[t].created.Some? {
        path := None;
      }
      points := points[t := Failed(points[t].errno)];
    }

    /** A system call of an initialising creator fails. */
    method Break(t: nat)
      requires Enabled(View(), Fault(t))
      modifies this
      ensures View() == Do(old(View()), Fault(t))
    {
      points := points[t := Cleanup(Building(points[t]), EFAILED)];
    }

    /** Runs the calls under an arbitrary scheduler until every one has returned. */
    method Run()
      requires Init(View())
      modifies this
      ensures Inv(View()) && AllReturned(View())
      ensures Clean(View()) ==> Agreed(View())
      ensures Clean(View()) && old(path) == None ==> OneInitialised(View())
    {
      InitInv(View());
      if path == None {
        BeginsEmpty(View());
      }
      while exists t: nat :: t < |points| && !Finished(points[t])
        invariant Inv(View()) && (old(path) == None ==> BegunEmpty(View()))
        decreases Measure(View())
      {
        var t: nat :| t < |points| && !Finished(points[t]);
        ghost var before := View();
        assert ThreadInv(before, t);
        var fault := Enabled(View(), Fault(t));
        var broken := *;
        ghost var a := if fault && broken then Fault(t) else Go(t);
        StepInv(before, a);
        StepProgresses(before, a);
        MeasureNonneg(Do(before, a));
        if old(path) == None {
          StepBegunEmpty(before, a);
        }
        if fault && broken {
          Break(t);
        } else if points[t].Cleanup? {
          Fail(t);
        } else if points[t].OpenOld? || points[t].MapOld? || points[t].Poll? || points[t].MagicOld? {
          Join(t);
        } else {
          Initialise(t);
        }
      }
      if Clean(View()) {
        CleanMeansAgreed(View());
        if old(path) == None {
          ReturnedMeansInitialised(View());
        }
      }
    }
  }
}
