/** `parallel_accumulate`: the range is cut into one block per thread, every thread folds its
    block into its own cell of a results vector starting from T(), and the cells are folded
    into the initial value. Workers are interleaved arbitrarily, also while later ones are
    still being started. */
module ParallelAccumulate {
  import opened Tally

  /** `std::accumulate`: the left-to-right fold. */
  function Fold<T>(op: (T, T) -> T, a: T, s: seq<T>): T {
    if s == [] then a else Fold(op, op(a, s[0]), s[1..])
  }

  ghost predicate Associative<T(!new)>(op: (T, T) -> T) {
    forall x, y, z :: op(op(x, y), z) == op(x, op(y, z))
  }

  ghost predicate RightIdentity<T(!new)>(op: (T, T) -> T, zero: T) {
    forall x :: op(x, zero) == x
  }

  // ----- cutting the range

  const MIN_PER_THREAD: nat := 25

  function MaxThreads(length: nat): nat { (length + MIN_PER_THREAD - 1) / MIN_PER_THREAD }

  function NumThreads(length: nat, hardware: nat): nat {
    var wanted := if hardware != 0 then hardware else 2;
    if wanted < MaxThreads(length) then wanted else MaxThreads(length)
  }

  function BlockSize(length: nat, hardware: nat): nat
    requires length > 0
  {
    ThreadsArePositive(length, hardware);
    length / NumThreads(length, hardware)
  }

  lemma ThreadsArePositive(length: nat, hardware: nat)
    requires length > 0
    ensures 1 <= NumThreads(length, hardware) <= length
  {
  }

  lemma DivisionBounds(length: nat, n: nat)
    requires n > 0
    ensures n * (length / n) <= length < n * (length / n) + n
  {
  }

  lemma Scaled(a: nat, b: nat, c: nat)
    requires a <= b
    ensures a * c <= b * c
  {
    var d := b - a;
    assert b * c == a * c + d * c;
  }

  lemma AtLeast(n: nat, size: nat, k: nat)
    ensures k > size ==> n * k >= n * size + n
  {
    if k > size {
      Scaled(size + 1, k, n);
      assert (size + 1) * n == n * size + n;
    }
  }

  lemma OneBlockLess(n: nat, size: nat)
    requires n > 0
    ensures (n - 1) * size + size == n * size
  {
  }

  lemma ThreadsAreWorthwhile(length: nat, hardware: nat)
    requires length > 0
    ensures MIN_PER_THREAD * NumThreads(length, hardware) <= length + 24
  {
  }

  lemma ThreadsAreTheFewer(length: nat, hardware: nat)
    ensures var wanted := if hardware != 0 then hardware else 2;
      var (n, enough) := (NumThreads(length, hardware), (length + 24) / 25);
      n <= wanted && n <= enough && (n == wanted || n == enough)
  {
  }

  /** There are as many threads as the hardware runs, or two if that is unknown, unless fewer
      suffice to give each 25 elements. The blocks of equal size fit into the range; the last
      block takes the rest, which exceeds the common size by less than the number of threads;
      and as soon as two threads are used no block is smaller than 13. */
  lemma BlocksAreFair(length: nat, hardware: nat)
    requires length > 0
    ensures var (n, size) := (NumThreads(length, hardware), BlockSize(length, hardware));
      && 1 <= n <= length && size >= 1
      && n <= (if hardware != 0 then hardware else 2) && n <= (length + 24) / 25
      && (n == (if hardware != 0 then hardware else 2) || n == (length + 24) / 25)
      && (n - 1) * size + size <= length
      && (var last := length - (n - 1) * size; size <= last < size + n)
      && (n >= 2 ==> size >= 13)
  {
    ThreadsArePositive(length, hardware);
    ThreadsAreWorthwhile(length, hardware);
    ThreadsAreTheFewer(length, hardware);
    var n, size := NumThreads(length, hardware), BlockSize(length, hardware);
    DivisionBounds(length, n);
    assert n * size <= length < n * size + n;
    hide NumThreads, BlockSize;
    OneBlockLess(n, size);
    AtLeast(n, size, 1);
    if n >= 2 {
      AtLeast(n, size, 13);
    }
  }

  // ----- what folding in blocks means

  lemma {:induction false} FoldSplit<T>(op: (T, T) -> T, a: T, s: seq<T>, t: seq<T>)
    ensures Fold(op, a, s + t) == Fold(op, Fold(op, a, s), t)
  {
    if s == [] {
      assert s + t == t;
    } else {
      assert (s + t)[1..] == s[1..] + t;
      FoldSplit(op, op(a, s[0]), s[1..], t);
    }
  }

  lemma FoldAppend<T>(op: (T, T) -> T, a: T, s: seq<T>, x: T)
    ensures Fold(op, a, s + [x]) == op(Fold(op, a, s), x)
  {
    FoldSplit(op, a, s, [x]);
  }

  /** An associative operation can be pulled out of a fold. */
  lemma {:induction false} FoldShift<T(!new)>(op: (T, T) -> T, a: T, b: T, s: seq<T>)
    requires Associative(op)
    ensures op(a, Fold(op, b, s)) == Fold(op, op(a, b), s)
  {
    if s != [] {
      FoldShift(op, a, op(b, s[0]), s[1..]);
    }
  }

  /** Folding a block separately from the identity and then combining is folding on. */
  lemma FoldBlock<T(!new)>(op: (T, T) -> T, zero: T, a: T, block: seq<T>)
    requires Associative(op) && RightIdentity(op, zero)
    ensures op(a, Fold(op, zero, block)) == Fold(op, a, block)
  {
    FoldShift(op, a, zero, block);
  }

  // ----- the workers

  /** A worker of `accumulate_block`: about to read its cell, adding with the element it adds
      next and the value so far, or finished with its cell written. */
  datatype Point<T> = Begin | Adding(at: nat, acc: T) | Finished

  /** What a worker contributes to the work left. */
  function Steps(left: nat): int { left }

  class Workers<T(0, !new)> {
    const op: (T, T) -> T
    const zero: T
    const data: seq<T>
    const results: array<T>
    var blocks: seq<(nat, nat)>
    var points: seq<Point<T>>
    ghost var left: seq<nat>

    function Block(i: nat): seq<T>
      reads this
      requires i < |blocks| && blocks[i].0 <= blocks[i].1 <= |data|
    {
      data[blocks[i].0..blocks[i].1]
    }

    ghost predicate WorkerValid(i: nat)
      reads this, results
      requires i < |blocks| == |points| == |left| && i < results.Length
    {
      var (first, last) := blocks[i];
      && first <= last <= |data|
      && match points[i]
         case Begin => results[i] == zero && left[i] == last - first + 2
         case Adding(at, acc) =>
           && first <= at <= last && left[i] == last - at + 1
           && results[i] == zero && acc == Fold(op, zero, data[first..at])
         case Finished => left[i] == 0 && results[i] == Fold(op, zero, Block(i))
    }

    ghost predicate Valid()
      reads this, results
    {
      && |blocks| == |points| == |left| <= results.Length
      && (forall i: nat :: i < |blocks| ==> WorkerValid(i))
      && (forall i :: |blocks| <= i < results.Length ==> results[i] == zero)
    }

    /** `std::vector<T> results(numThreads)`, every cell T(). */
    constructor (op: (T, T) -> T, zero: T, data: seq<T>, threads: nat)
      ensures Valid() && fresh(results) && results.Length == threads && blocks == []
      ensures this.op == op && this.zero == zero && this.data == data
    {
      this.op, this.zero, this.data := op, zero, data;
      results := new T[threads](_ => zero);
      blocks, points, left := [], [], [];
    }

    /** Starts a worker on data[first..last]. */
    method Start(first: nat, last: nat)
      requires Valid() && |blocks| < results.Length && first <= last <= |data|
      modifies this`blocks, this`points, this`left
      ensures Valid() && blocks == old(blocks) + [(first, last)]
    {
      blocks, points, left := blocks + [(first, last)], points + [Begin], left + [last - first + 2];
      forall i: nat | i < |blocks| ensures WorkerValid(i) {
        assert i < |old(blocks)| ==> old(WorkerValid(i));
      }
    }

    /** One step of worker i. */
    method Step(i: nat)
      requires Valid() && i < |points| && !points[i].Finished?
      modifies this`points, this`left, results
      ensures Valid() && |points| == old(|points|)
      ensures Sum(Steps, left) < Sum(Steps, old(left))
    {
      assert WorkerValid(i);
      match points[i] {
        case Begin =>
          assert data[blocks[i].0..blocks[i].0] == [];
          points := points[i := Adding(blocks[i].0, results[i])];
        case Adding(at, acc) =>
          if at < blocks[i].1 {
            FoldAppend(op, zero, data[blocks[i].0..at], data[at]);
            assert data[blocks[i].0..at] + [data[at]] == data[blocks[i].0..at + 1];
            points := points[i := Adding(at + 1, op(acc, data[at]))];
          } else {
            results[i] := acc;
            points := points[i := Finished];
          }
      }
      ghost var rest := if points[i].Finished? then 0 else left[i] - 1;
      SumUpdate(Steps, left, i, rest);
      left := left[i := rest];
      forall k: nat | k < |blocks| ensures WorkerValid(k) {
        assert k != i ==> old(WorkerValid(k));
      }
    }

    /** The scheduler: some workers take some steps; with `all` it goes on until every
        worker has finished, which is what joining them waits for. */
    method Interleave(all: bool)
      requires Valid()
      modifies this`points, this`left, results
      ensures Valid() && |points| == old(|points|)
      ensures all ==> forall i :: 0 <= i < |points| ==> points[i].Finished?
    {
      var goOn := true;
      while goOn && exists i: nat :: i < |points| && !points[i].Finished?
        invariant Valid() && |points| == old(|points|)
        invariant all ==> goOn
        decreases goOn, Sum(Steps, left)
      {
        var i: nat :| i < |points| && !points[i].Finished?;
        SumNonneg(Steps, left);
        Step(i);
        SumNonneg(Steps, left);
        var stop := *;
        goOn := all || !stop;
      }
    }
  }

  /** The blocks follow one another without gap or overlap from 0 to `end`. */
  ghost predicate Contiguous(blocks: seq<(nat, nat)>, end: nat) {
    && (forall i :: 0 <= i < |blocks| ==> blocks[i].0 <= blocks[i].1)
    && (forall i, j :: 0 <= i < |blocks| && 0 <= j < |blocks| && j == i + 1 ==> blocks[i].1 == blocks[j].0)
    && if blocks == [] then end == 0 else blocks[0].0 == 0 && blocks[|blocks| - 1].1 == end
  }

  lemma NothingIsContiguous(end: nat)
    ensures Contiguous([], end) <==> end == 0
  {
  }

  lemma ContiguousAppend(blocks: seq<(nat, nat)>, first: nat, last: nat)
    requires Contiguous(blocks, first) && first <= last
    ensures Contiguous(blocks + [(first, last)], last)
  {
  }

  /** Where a block starts, given where the ones before it end. */
  lemma BlockFollows(blocks: seq<(nat, nat)>, end: nat, i: nat)
    requires Contiguous(blocks, end) && i < |blocks|
    ensures blocks[i].0 == (if i == 0 then 0 else blocks[i - 1].1) <= blocks[i].1
    ensures i == |blocks| - 1 ==> blocks[i].1 == end
  {
  }

  lemma CombineOne<T(!new)>(op: (T, T) -> T, zero: T, init: T, data: seq<T>, first: nat, last: nat)
    requires Associative(op) && RightIdentity(op, zero) && first <= last <= |data|
    ensures op(Fold(op, init, data[..first]), Fold(op, zero, data[first..last])) == Fold(op, init, data[..last])
  {
    FoldBlock(op, zero, Fold(op, init, data[..first]), data[first..last]);
    FoldSplit(op, init, data[..first], data[first..last]);
    assert data[..first] + data[first..last] == data[..last];
  }

  lemma BlockFits(i: nat, n: nat, size: nat, length: nat)
    requires i < n - 1 && (n - 1) * size <= length
    ensures (i + 1) * size == i * size + size <= length
  {
    Scaled(i + 1, n - 1, size);
    assert (i + 1) * size == i * size + size;
  }

  /** The partition loop: starts numThreads - 1 workers on blocks of equal size and one on
      what is left, while those already started go on running. */
  method StartAll<T(0, !new)>(workers: Workers<T>, numThreads: nat, blockSize: nat)
    requires workers.Valid() && workers.blocks == [] && workers.results.Length == numThreads >= 1
    requires (numThreads - 1) * blockSize <= |workers.data|
    modifies workers`blocks, workers`points, workers`left, workers.results
    ensures workers.Valid() && |workers.blocks| == numThreads
    ensures Contiguous(workers.blocks, |workers.data|)
    ensures forall i :: 0 <= i < numThreads - 1 ==> workers.blocks[i].1 - workers.blocks[i].0 == blockSize
  {
    NothingIsContiguous(0);
    hide Workers.WorkerValid, Workers.Valid, Fold, Contiguous;
    var blockStart: nat := 0;
    for i := 0 to numThreads - 1
      invariant workers.Valid() && |workers.blocks| == i
      invariant blockStart == i * blockSize && Contiguous(workers.blocks, blockStart)
      invariant forall k :: 0 <= k < i ==> workers.blocks[k].1 - workers.blocks[k].0 == blockSize
    {
      BlockFits(i, numThreads, blockSize, |workers.data|);
      var blockEnd := blockStart + blockSize;
      ContiguousAppend(workers.blocks, blockStart, blockEnd);
      workers.Start(blockStart, blockEnd);
      workers.Interleave(false);
      blockStart := blockEnd;
    }
    ContiguousAppend(workers.blocks, blockStart, |workers.data|);
    workers.Start(blockStart, |workers.data|);
  }

  /** The final fold over the results of finished workers. */
  method Combine<T(0, !new)>(workers: Workers<T>, init: T) returns (r: T)
    requires Associative(workers.op) && RightIdentity(workers.op, workers.zero)
    requires workers.Valid() && Contiguous(workers.blocks, |workers.data|) && |workers.blocks| == workers.results.Length
    requires forall i :: 0 <= i < |workers.points| ==> workers.points[i].Finished?
    ensures r == Fold(workers.op, init, workers.data)
  {
    ghost var op, data := workers.op, workers.data;
    assert Fold(op, init, data[..0]) == init;
    NothingIsContiguous(|data|);
    hide Fold, Associative, RightIdentity, Contiguous;
    r := init;
    for i := 0 to workers.results.Length
      invariant i > 0 ==> workers.blocks[i - 1].1 <= |data|
      invariant r == Fold(op, init, data[..if i == 0 then 0 else workers.blocks[i - 1].1])
    {
      ghost var first, last := workers.blocks[i].0, workers.blocks[i].1;
      BlockFollows(workers.blocks, |data|, i);
      assert workers.WorkerValid(i) && workers.points[i].Finished?;
      CombineOne(op, workers.zero, init, data, first, last);
      r := workers.op(r, workers.results[i]);
    }
    if workers.blocks != [] {
      BlockFollows(workers.blocks, |data|, |workers.blocks| - 1);
    }
    assert data[..|data|] == data;
  }

  /** Decides on the number of threads and the size of the blocks, and starts the workers. */
  method Launch<T(0, !new)>(op: (T, T) -> T, zero: T, data: seq<T>, hardware: nat) returns (workers: Workers<T>)
    requires |data| > 0
    ensures fresh(workers) && fresh(workers.results) && workers.Valid()
    ensures workers.op == op && workers.zero == zero && workers.data == data
    ensures |workers.blocks| == workers.results.Length == NumThreads(|data|, hardware)
    ensures Contiguous(workers.blocks, |data|)
    ensures forall i :: 0 <= i < |workers.blocks| - 1 ==>
      workers.blocks[i].1 - workers.blocks[i].0 == BlockSize(|data|, hardware)
  {
    var length := |data|;
    BlocksAreFair(length, hardware);
    var maxThreads := (length + MIN_PER_THREAD - 1) / MIN_PER_THREAD;
    var wanted := if hardware != 0 then hardware else 2;
    var numThreads := if wanted < maxThreads then wanted else maxThreads;
    var blockSize := length / numThreads;
    workers := new Workers(op, zero, data, numThreads);
    StartAll(workers, numThreads, blockSize);
  }

  /** The whole function: whatever the hardware and however the workers interleave, the
      result is the plain left-to-right fold, computed by as many threads as is fair. */
  method Accumulate<T(0, !new)>(op: (T, T) -> T, zero: T, data: seq<T>, init: T, hardware: nat)
    returns (r: T, threads: nat)
    requires Associative(op) && RightIdentity(op, zero)
    ensures r == Fold(op, init, data)
    ensures threads == if data == [] then 0 else NumThreads(|data|, hardware)
  {
    if |data| == 0 {
      return init, 0;
    }
    var workers := Launch(op, zero, data, hardware);
    workers.Interleave(true);
    threads := |workers.blocks|;
    r := Combine(workers, init);
  }
}
