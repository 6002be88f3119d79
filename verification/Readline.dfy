/** lib/readline.cpp: `my_read` hands out single bytes from a static buffer that it refills
    with whatever `read` returns, and `readline` collects them into lines. Together they are
    specified on the stream of bytes, as if it were read one byte at a time. */
module Readline {
  import opened Bytes
  import opened Sequences

  const MAXLINE: nat := 4096

  // ----- one line of a stream

  /** How many bytes `readline` stores when there is room for that many. */
  function LineLength(s: seq<byte>, room: nat): nat {
    if room == 0 || s == [] then 0
    else if s[0] == NEWLINE then 1
    else 1 + LineLength(s[1..], room - 1)
  }

  /** One place is kept for the terminating NUL. */
  function Room(maxlen: nat): nat { if maxlen == 0 then 0 else maxlen - 1 }

  predicate EndsLine(line: seq<byte>) { line != [] && line[|line| - 1] == NEWLINE }

  /** The value `readline` returns: at end of file 0, otherwise the stored length, plus one
      unless a newline was stored. */
  function ReturnValue(s: seq<byte>, maxlen: nat): nat {
    var k := LineLength(s, Room(maxlen));
    if s == [] && maxlen >= 2 then 0
    else if k > 0 && k <= |s| && s[k - 1] == NEWLINE then k
    else k + 1
  }

  /** k bytes are a line: it ends with the first newline, or where the room or the stream
      ends, whichever comes first. */
  ghost predicate IsLine(s: seq<byte>, room: nat, k: nat) {
    && k <= room && k <= |s|
    && (forall i :: 0 <= i < k - 1 ==> s[i] != NEWLINE)
    && (k == room || k == |s| || (k > 0 && s[k - 1] == NEWLINE))
  }

  lemma {:induction false} LineLengthIsALine(s: seq<byte>, room: nat)
    ensures IsLine(s, room, LineLength(s, room))
  {
    if room > 0 && s != [] && s[0] != NEWLINE {
      LineLengthIsALine(s[1..], room - 1);
      var k := LineLength(s[1..], room - 1);
      forall i | 0 <= i < k ensures s[i] != NEWLINE {
        if i > 0 {
          assert s[i] == s[1..][i - 1];
        }
      }
    }
  }

  /** The line is determined by the stream and the room. */
  lemma LineIsUnique(s: seq<byte>, room: nat, j: nat, k: nat)
    requires IsLine(s, room, j) && IsLine(s, room, k)
    ensures j == k
  {
  }

  /** Part of a line: what has been stored, what is left of the stream, no newline yet. */
  ghost predicate Collected(s: seq<byte>, room: nat, stored: seq<byte>, rest: seq<byte>) {
    && stored + rest == s && |stored| <= room && NEWLINE !in stored
    && LineLength(s, room) == |stored| + LineLength(rest, room - |stored|)
  }

  lemma NothingCollected(s: seq<byte>, room: nat)
    ensures Collected(s, room, [], s)
  {
    assert [] + s == s;
  }

  lemma CollectOne(s: seq<byte>, room: nat, stored: seq<byte>, c: byte, rest: seq<byte>)
    requires Collected(s, room, stored, [c] + rest) && |stored| < room && c != NEWLINE
    ensures Collected(s, room, stored + [c], rest)
  {
    assert ([c] + rest)[1..] == rest;
    assert stored + [c] + rest == stored + ([c] + rest);
  }

  /** What the end of collecting says about the line and the value to return. */
  ghost predicate Collects(s: seq<byte>, maxlen: nat, line: seq<byte>, rest: seq<byte>, r: nat) {
    && line + rest == s && |line| == LineLength(s, Room(maxlen)) && r == ReturnValue(s, maxlen)
  }

  lemma EndsAtNewline(s: seq<byte>, maxlen: nat, stored: seq<byte>, rest: seq<byte>)
    requires Collected(s, Room(maxlen), stored, [NEWLINE] + rest) && |stored| < Room(maxlen)
    ensures Collects(s, maxlen, stored + [NEWLINE], rest, |stored| + 1)
  {
    assert ([NEWLINE] + rest)[0] == NEWLINE;
    assert s[|stored|] == NEWLINE;
    assert stored + [NEWLINE] + rest == stored + ([NEWLINE] + rest);
  }

  lemma EndOfFile(s: seq<byte>, maxlen: nat)
    requires Collected(s, Room(maxlen), [], []) && maxlen >= 2
    ensures Collects(s, maxlen, [], [], 0)
  {
  }

  lemma CollectedIsPart(s: seq<byte>, room: nat, stored: seq<byte>, rest: seq<byte>)
    requires Collected(s, room, stored, rest)
    ensures stored + rest == s && NEWLINE !in stored
  {
  }

  /** The room or the stream is used up. */
  lemma EndsWithoutNewline(s: seq<byte>, maxlen: nat, stored: seq<byte>, rest: seq<byte>)
    requires Collected(s, Room(maxlen), stored, rest)
    requires |stored| == Room(maxlen) || rest == []
    requires stored != [] || maxlen < 2
    ensures Collects(s, maxlen, stored, rest, |stored| + 1)
  {
    if stored != [] {
      assert s[|stored| - 1] == stored[|stored| - 1];
    }
  }

  /** A call on a stream that has bytes left consumes some exactly when the buffer has room
      for a byte and the NUL. */
  lemma ProgressExactlyWithRoom(s: seq<byte>, maxlen: nat)
    requires s != []
    ensures LineLength(s, Room(maxlen)) > 0 <==> maxlen >= 2
  {
  }

  // ----- buffers

  /** The front of a buffer holds the line and the rest is as it was. */
  ghost predicate Holds(now: seq<byte>, was: seq<byte>, line: seq<byte>) {
    |line| <= |now| == |was| && now[..|line|] == line && now[|line|..] == was[|line|..]
  }

  lemma HoldsNothing(now: seq<byte>)
    ensures Holds(now, now, [])
  {
  }

  lemma HoldsOneMore(now: seq<byte>, was: seq<byte>, line: seq<byte>, c: byte)
    requires Holds(now, was, line) && |line| < |now|
    ensures Holds(now[|line| := c], was, line + [c])
  {
    var n := now[|line| := c];
    assert n[..|line| + 1] == now[..|line|] + [c];
    assert n[|line| + 1..] == now[|line|..][1..];
    assert was[|line| + 1..] == was[|line|..][1..];
  }

  lemma TakeFront(buf: seq<byte>, from: nat, count: nat, rest: seq<byte>)
    requires 0 < count && from + count <= |buf|
    ensures buf[from..from + count] + rest == [buf[from]] + (buf[from + 1..from + count] + rest)
  {
    assert buf[from..from + count] == [buf[from]] + buf[from + 1..from + count];
  }

  // ----- all the lines of a stream

  function Lines(s: seq<byte>, maxlen: nat): seq<seq<byte>>
    requires maxlen >= 2
    decreases |s|
  {
    if s == [] then [] else
    LineLengthIsALine(s, Room(maxlen));
    var k := LineLength(s, Room(maxlen));
    [s[..k]] + Lines(s[k..], maxlen)
  }

  lemma {:induction false} FlattenFront(c: seq<byte>, rest: seq<seq<byte>>)
    ensures Flatten([c] + rest) == c + Flatten(rest)
  {
    if rest == [] {
      FlattenAppend([], c);
      assert [] + [c] == [c] + rest;
    } else {
      var last := rest[|rest| - 1];
      FlattenFront(c, rest[..|rest| - 1]);
      FlattenAppend([c] + rest[..|rest| - 1], last);
      assert [c] + rest == ([c] + rest[..|rest| - 1]) + [last];
    }
  }

  /** Put together, the lines are the stream. */
  lemma {:induction false} LinesAreTheStream(s: seq<byte>, maxlen: nat)
    requires maxlen >= 2
    ensures Flatten(Lines(s, maxlen)) == s
    decreases |s|
  {
    if s != [] {
      var k := LineLength(s, Room(maxlen));
      LineLengthIsALine(s, Room(maxlen));
      LinesAreTheStream(s[k..], maxlen);
      FlattenFront(s[..k], Lines(s[k..], maxlen));
      assert s[..k] + s[k..] == s;
    }
  }

  /** A line as a caller gets it: nonempty, fitting, with no newline but at its end. */
  ghost predicate Proper(line: seq<byte>, maxlen: nat) {
    0 < |line| < maxlen && forall j :: 0 <= j < |line| - 1 ==> line[j] != NEWLINE
  }

  /** Every line is proper, and every line but the last ends in a newline or fills the room. */
  lemma {:induction false} LinesAreProper(s: seq<byte>, maxlen: nat, i: nat)
    requires maxlen >= 2 && i < |Lines(s, maxlen)|
    ensures var lines := Lines(s, maxlen);
      Proper(lines[i], maxlen) && (i == |lines| - 1 || EndsLine(lines[i]) || |lines[i]| == maxlen - 1)
    decreases |s|
  {
    var k := LineLength(s, Room(maxlen));
    LineLengthIsALine(s, Room(maxlen));
    if i > 0 {
      LinesAreProper(s[k..], maxlen, i - 1);
    } else if k == |s| {
      assert s[k..] == [];
    }
  }

  /** What a caller can infer from the returned value: nothing is stored exactly at the end
      of the stream, and otherwise the value is the stored length if the line ends in a
      newline and one more if it does not. Each call takes the next line. */
  lemma StoredLengthIsKnown(s: seq<byte>, maxlen: nat, line: seq<byte>, rest: seq<byte>, r: nat)
    requires maxlen >= 2 && Collects(s, maxlen, line, rest, r)
    ensures r == 0 <==> s == []
    ensures r > 0 ==> |line| > 0 && |line| < maxlen && r == if EndsLine(line) then |line| else |line| + 1
    ensures Lines(s, maxlen) == if r == 0 then [] else [line] + Lines(rest, maxlen)
  {
    LineLengthIsALine(s, Room(maxlen));
    assert s[..|line|] == line && s[|line|..] == rest;
  }

  lemma NoMoreLines(s: seq<byte>, maxlen: nat, line: seq<byte>, rest: seq<byte>)
    requires maxlen >= 2 && Collects(s, maxlen, line, rest, 0)
    ensures rest == s && Lines(rest, maxlen) == []
  {
    StoredLengthIsKnown(s, maxlen, line, rest, 0);
    assert line + rest == s == [];
  }

  /** How a caller finds the line in the buffer: the byte before the end tells the stored
      length. */
  lemma LineInBuffer(buf: seq<byte>, s: seq<byte>, maxlen: nat, line: seq<byte>, rest: seq<byte>, r: nat)
    requires maxlen >= 2 && Collects(s, maxlen, line, rest, r) && r > 0
    requires |line| < |buf| && buf[..|line|] == line && buf[|line|] == NUL
    ensures r <= |buf| && buf[..if buf[r - 1] == NEWLINE then r else r - 1] == line
    ensures |rest| < |s|
  {
    StoredLengthIsKnown(s, maxlen, line, rest, r);
    hide Collects, Lines;
    if EndsLine(line) {
      assert line[|line| - 1] == buf[|line| - 1];
    }
  }

  // ----- the program

  /** Why `read` returned -1. */
  datatype Errno = EINTR | EIO

  /** An open descriptor and the static variables of `my_read`. `interrupts` bounds how
      often signals can still interrupt a read; `failing` says whether other errors occur. */
  class Reader {
    var rest: seq<byte>
    var interrupts: nat
    const failing: bool
    var readCnt: int
    var readPtr: nat
    const readBuf: array<byte>

    ghost predicate Valid()
      reads this
    {
      readBuf.Length == MAXLINE && readCnt <= MAXLINE && (readCnt > 0 ==> readPtr + readCnt <= MAXLINE)
    }

    /** What callers of `my_read` have not seen yet: the buffered bytes, then the rest. */
    ghost function Stream(): seq<byte>
      reads this, readBuf
      requires Valid()
    {
      (if readCnt > 0 then readBuf[readPtr..readPtr + readCnt] else []) + rest
    }

    constructor (file: seq<byte>, interrupts: nat, failing: bool)
      ensures Valid() && Stream() == file && this.failing == failing && fresh(readBuf)
    {
      rest, this.interrupts, this.failing := file, interrupts, failing;
      readCnt, readPtr, readBuf := 0, 0, new byte[MAXLINE];
    }

    /** The system call: any nonempty part of the rest that fits, 0 at the end, or -1. */
    method Read() returns (n: int, errno: Errno)
      requires Valid()
      modifies this`rest, this`interrupts, readBuf
      ensures -1 <= n <= MAXLINE
      ensures n > 0 ==> readBuf[..n] + rest == old(rest)
      ensures n <= 0 ==> rest == old(rest)
      ensures n == 0 ==> rest == []
      ensures n == -1 ==> (if errno == EINTR then interrupts < old(interrupts) else failing)
      ensures interrupts <= old(interrupts)
    {
      errno := EIO;
      var fate: nat := *;
      if fate == 0 && interrupts > 0 {
        interrupts := interrupts - 1;
        return -1, EINTR;
      } else if fate == 1 && failing {
        return -1, EIO;
      } else if rest == [] {
        return 0, EIO;
      }
      var most: nat := if |rest| < MAXLINE then |rest| else MAXLINE;
      n :| 0 < n <= most;
      var chunk := rest[..n];
      rest := rest[n..];
      for i := 0 to n
        invariant chunk + rest == old(rest) && interrupts == old(interrupts)
        invariant forall k :: 0 <= k < i ==> readBuf[k] == chunk[k]
      {
        readBuf[i] := chunk[i];
      }
      assert readBuf[..n] == chunk;
    }

    /** The read of `my_read`, repeated as long as it is interrupted: on success the buffer
        is full of new bytes, and in no case does the stream move. */
    method Refill()
      requires Valid() && readCnt <= 0
      modifies this, readBuf
      ensures Valid() && Stream() == old(Stream())
      ensures readCnt == 0 ==> Stream() == []
      ensures readCnt < 0 ==> readCnt == -1 && failing
    {
      assert Stream() == rest;
      var errno: Errno;
      readCnt, errno := Read();
      while readCnt < 0 && errno == EINTR
        invariant -1 <= readCnt <= MAXLINE
        invariant readCnt > 0 ==> readBuf[..readCnt] + rest == old(rest)
        invariant readCnt <= 0 ==> rest == old(rest)
        invariant readCnt == 0 ==> rest == []
        invariant readCnt == -1 && errno != EINTR ==> failing
        decreases interrupts, readCnt < 0 && errno == EINTR
      {
        assert Valid();
        readCnt, errno := Read();
      }
      if readCnt > 0 {
        readPtr := 0;
        assert readBuf[0..readCnt] == readBuf[..readCnt];
      }
    }

    /** One byte of the stream: 1 with the byte, 0 at the end, -1 on an error other than an
        interruption; the stream moves on only in the first case. */
    method MyRead() returns (rc: int, c: byte)
      requires Valid()
      modifies this, readBuf
      ensures Valid()
      ensures rc == 1 || rc == 0 || (rc == -1 && failing)
      ensures rc == 1 ==> old(Stream()) == [c] + Stream()
      ensures rc != 1 ==> Stream() == old(Stream())
      ensures rc == 0 ==> Stream() == []
    {
      c := 0;
      if readCnt <= 0 {
        Refill();
        if readCnt < 0 {
          return -1, c;
        } else if readCnt == 0 {
          return 0, c;
        }
      }
      TakeFront(readBuf[..], readPtr, readCnt, rest);
      assert Stream() == readBuf[..][readPtr..readPtr + readCnt] + rest;
      readCnt := readCnt - 1;
      c := readBuf[readPtr];
      readPtr := readPtr + 1;
      rc := 1;
      assert Stream() == readBuf[..][readPtr..readPtr + readCnt] + rest;
    }

    /** The loop of `readline`: stores bytes until a newline, the room or the stream ends
        it, and leaves in n what is to be returned: 0 if the stream had already ended, -1
        after an error. */
    method Collect(buf: array<byte>, maxlen: nat) returns (n: int, ptr: nat, ghost line: seq<byte>)
      requires Valid() && buf != readBuf && buf.Length >= maxlen && buf.Length >= 1
      modifies this, readBuf, buf
      ensures Valid() && -1 <= n && ptr == |line| < buf.Length
      ensures Holds(buf[..], old(buf[..]), line)
      ensures n == 0 ==> line == []
      ensures n >= 0 ==> Collects(old(Stream()), maxlen, line, Stream(), n)
      ensures n == -1 ==> failing && |line| < maxlen && NEWLINE !in line && old(Stream()) == line + Stream()
    {
      ghost var s, room, was := Stream(), Room(maxlen), buf[..];
      NothingCollected(s, room);
      HoldsNothing(was);
      hide Valid, Stream, Collected, Collects, LineLength, Holds;
      n, ptr, line := 1, 0, [];
      while n < maxlen
        invariant Valid() && ptr == n - 1 == |line| && ptr <= room && ptr < buf.Length
        invariant Holds(buf[..], was, line)
        invariant Collected(s, room, line, Stream())
        decreases maxlen - n
      {
        var rc, c := MyRead();
        if rc == 1 {
          HoldsOneMore(buf[..], was, line, c);
          ghost var now := buf[..];
          buf[ptr] := c;
          assert buf[..] == now[ptr := c];
          ptr := ptr + 1;
          if c == NEWLINE {
            EndsAtNewline(s, maxlen, line, Stream());
            line := line + [c];
            return;
          }
          CollectOne(s, room, line, c, Stream());
          line := line + [c];
          n := n + 1;
        } else if rc == 0 {
          if n == 1 {
            EndOfFile(s, maxlen);
            n := 0;
          } else {
            EndsWithoutNewline(s, maxlen, line, Stream());
          }
          return;
        } else {
          CollectedIsPart(s, room, line, Stream());
          n := -1;
          return;
        }
      }
      EndsWithoutNewline(s, maxlen, line, Stream());
    }

    /** Reads a line into buf. Unless an error interrupts it, it stores exactly the line the
        stream starts with, terminates it inside the buffer, moves the stream past it, and
        returns the value documented above; at end of file the buffer is untouched. After
        an error the bytes already stored are lost to later calls. The caller provides
        maxlen bytes, and at least the one that the NUL goes to. */
    method Readline(buf: array<byte>, maxlen: nat) returns (r: int, ghost line: seq<byte>)
      requires Valid() && buf != readBuf && buf.Length >= maxlen && buf.Length >= 1
      modifies this, readBuf, buf
      ensures Valid() && -1 <= r && |line| < buf.Length && buf[..|line|] == line
      ensures r == 0 ==> line == [] && buf[..] == old(buf[..])
      ensures r >= 0 ==> Collects(old(Stream()), maxlen, line, Stream(), r)
      ensures r > 0 ==> buf[|line|] == NUL && buf[|line| + 1..] == old(buf[..])[|line| + 1..]
      ensures r == -1 ==> failing && |line| < maxlen && NEWLINE !in line && old(Stream()) == line + Stream()
    {
      ghost var before := buf[..];
      var ptr;
      r, ptr, line := Collect(buf, maxlen);
      if r > 0 {
        buf[ptr] := NUL;
        assert buf[ptr + 1..] == before[ptr..][1..];
      }
    }

    /** Reads lines until the end of the stream, as a caller would: the stored length is the
        returned value or one less, told apart by the byte before the NUL. */
    method ReadLines(maxlen: nat) returns (lines: seq<seq<byte>>)
      requires Valid() && !failing && maxlen >= 2
      modifies this, readBuf
      ensures lines == Lines(old(Stream()), maxlen) && Flatten(lines) == old(Stream())
    {
      ghost var s := Stream();
      var buf := new byte[maxlen];
      var r := 1;
      lines := [];
      hide *;
      while r != 0
        invariant Valid() && fresh(buf) && buf != readBuf && buf.Length == maxlen
        invariant lines + Lines(Stream(), maxlen) == Lines(s, maxlen)
        invariant r == 0 ==> Lines(Stream(), maxlen) == []
        decreases r != 0, |Stream()|
      {
        ghost var before := Stream();
        ghost var stored;
        r, stored := Readline(buf, maxlen);
        StoredLengthIsKnown(before, maxlen, stored, Stream(), r);
        if r > 0 {
          LineInBuffer(buf[..], before, maxlen, stored, Stream(), r);
          var length := if buf[r - 1] == NEWLINE then r else r - 1;
          assert buf[..length] == buf[..][..length] == stored;
          Regroup(lines, [stored], Lines(Stream(), maxlen));
          lines := lines + [buf[..length]];
        } else {
          NoMoreLines(before, maxlen, stored, Stream());
        }
      }
      assert lines + [] == lines;
      LinesAreTheStream(s, maxlen);
    }
  }
}
