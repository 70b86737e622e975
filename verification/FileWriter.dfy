/** BufferedFileWriter of psdaq/drp/FileWriter.cc, and its loop around write(2). */
module FileWriter {
  import Bits

  type byte = Bits.byte

  /** What a run of write(2) calls returns: each asks for all that is left, and the
      loop ends when a call writes all of it or fails. */
  predicate Legal(results: seq<int>, count: nat) {
    && results != [] && -1 <= results[0] <= count
    && if results[0] == -1 || results[0] == count then |results| == 1
       else Legal(results[1..], count - results[0])
  }

  predicate Succeeds(results: seq<int>) {
    results != [] && results[|results| - 1] >= 0
  }

  /** The bytes the calls put into the file. Each call starts at the size the one
      before it returned, whatever was written earlier. */
  function Written(buffer: seq<byte>, results: seq<int>, offset: nat, count: nat): seq<byte>
    requires Legal(results, count) && offset + count <= |buffer|
  {
    if results[0] == -1 then []
    else
      var now := buffer[offset..offset + results[0]];
      if results[0] == count then now
      else now + Written(buffer, results[1..], results[0], count - results[0])
  }

  /** How many bytes were written before call j, and where call j starts. */
  function Total(results: seq<int>, j: nat): int
    requires j <= |results|
  {
    if j == 0 then 0 else results[0] + Total(results[1..], j - 1)
  }

  function Start(results: seq<int>, offset: nat, j: nat): int
    requires j <= |results|
  {
    if j == 0 then offset else results[j - 1]
  }

  /** A call that writes something comes at most one after the first such call. */
  predicate AtMostOneContinuation(results: seq<int>) {
    forall i, j :: 0 <= i < j - 1 && j < |results| && results[j] > 0 ==> results[i] == 0
  }

  lemma {:induction false} LegalSizes(results: seq<int>, count: nat)
    requires Legal(results, count) && Succeeds(results)
    ensures forall i :: 0 <= i < |results| ==> results[i] >= 0
    ensures Total(results, |results|) == count
  {
    if results[0] != count {
      assert Succeeds(results[1..]);
      LegalSizes(results[1..], count - results[0]);
    }
  }

  lemma {:induction false} TotalNext(results: seq<int>, j: nat)
    requires j < |results|
    ensures Total(results, j + 1) == Total(results, j) + results[j]
  {
    if j > 0 {
      TotalNext(results[1..], j - 1);
    }
  }

  lemma {:induction false} TotalZero(results: seq<int>, j: nat)
    requires j <= |results| && forall i :: 0 <= i < |results| ==> results[i] >= 0
    ensures Total(results, j) >= 0
    ensures Total(results, j) == 0 <==> forall i :: 0 <= i < j ==> results[i] == 0
  {
    if j > 0 {
      TotalNext(results, j - 1);
      TotalZero(results, j - 1);
    }
  }

  lemma {:induction false} WrittenLength(buffer: seq<byte>, results: seq<int>, offset: nat, count: nat)
    requires Legal(results, count) && offset + count <= |buffer| && Succeeds(results)
    ensures |Written(buffer, results, offset, count)| == count
  {
    if results[0] != count {
      assert Succeeds(results[1..]);
      WrittenLength(buffer, results[1..], results[0], count - results[0]);
    }
  }

  /** Where a written byte came from. */
  lemma {:induction false} ByteOf(buffer: seq<byte>, results: seq<int>, offset: nat, count: nat, j: nat, x: nat)
    requires Legal(results, count) && offset + count <= |buffer| && Succeeds(results)
    requires j < |results| && x < results[j]
    ensures 0 <= Start(results, offset, j) && Start(results, offset, j) + x < |buffer|
    ensures 0 <= Total(results, j) + x < |Written(buffer, results, offset, count)|
    ensures Written(buffer, results, offset, count)[Total(results, j) + x] == buffer[Start(results, offset, j) + x]
  {
    WrittenLength(buffer, results, offset, count);
    if j > 0 {
      assert Succeeds(results[1..]);
      ByteOf(buffer, results[1..], results[0], count - results[0], j - 1, x);
    }
  }

  /** Which call wrote byte p. */
  lemma {:induction false} WriterOf(results: seq<int>, count: nat, p: nat) returns (j: nat)
    requires Legal(results, count) && Succeeds(results) && p < count
    ensures j < |results| && Total(results, j) <= p < Total(results, j) + results[j]
  {
    if p < results[0] {
      j := 0;
    } else {
      assert Succeeds(results[1..]);
      j := WriterOf(results[1..], count - results[0], p - results[0]);
      j := j + 1;
    }
  }

  lemma StartIsTotal(results: seq<int>, count: nat, j: nat)
    requires Legal(results, count) && Succeeds(results) && j < |results|
    ensures Start(results, 0, j) <= Total(results, j)
    ensures Start(results, 0, j) == Total(results, j) <==> forall i :: 0 <= i < j - 1 ==> results[i] == 0
  {
    LegalSizes(results, count);
    if j > 0 {
      TotalNext(results, j - 1);
      TotalZero(results, j - 1);
    }
  }

  /** A buffer with one byte that tells where it went. */
  function Marked(n: nat, p: nat): (r: seq<byte>)
    ensures |r| == n && forall i :: 0 <= i < n ==> r[i] == if i == p then 1 else 0
  {
    seq(n, i => if i == p then 1 else 0)
  }

  /** The loop writes every buffer as it is exactly when at most one call continues
      a short one: a second continuation starts too early in the buffer. */
  lemma ShortWrites(results: seq<int>, n: nat)
    requires Legal(results, n) && Succeeds(results)
    ensures AtMostOneContinuation(results) <==>
            forall buffer: seq<byte> | |buffer| == n :: Written(buffer, results, 0, n) == buffer
  {
    if AtMostOneContinuation(results) {
      forall buffer: seq<byte> | |buffer| == n
        ensures Written(buffer, results, 0, n) == buffer
      {
        WrittenRight(buffer, results);
      }
    } else {
      var i, j :| 0 <= i < j - 1 && j < |results| && results[j] > 0 && results[i] != 0;
      var p := Total(results, j);
      StartIsTotal(results, n, j);
      LegalSizes(results, n);
      TotalZero(results, j);
      ByteOf(Marked(n, p), results, 0, n, j, 0);
      assert Written(Marked(n, p), results, 0, n) != Marked(n, p);
    }
  }

  /** One byte at a time: the third of three is the second again. */
  lemma SecondContinuationFails(buffer: seq<byte>)
    requires |buffer| == 3
    ensures Legal([1, 1, 1], 3) && Succeeds([1, 1, 1]) && !AtMostOneContinuation([1, 1, 1])
    ensures Written(buffer, [1, 1, 1], 0, 3) == [buffer[0], buffer[1], buffer[1]]
  {
    assert [1, 1, 1][1..] == [1, 1] && [1, 1][1..] == [1];
    assert Legal([1], 1) && Legal([1, 1], 2);
    assert Written(buffer, [1], 1, 1) == [buffer[1]];
    assert Written(buffer, [1, 1], 1, 2) == [buffer[1]] + [buffer[1]];
    assert [1, 1, 1][2] > 0 && [1, 1, 1][0] != 0;
  }

  lemma ByteStays(buffer: seq<byte>, results: seq<int>, n: nat, p: nat)
    requires Legal(results, n) && n == |buffer| && Succeeds(results) && AtMostOneContinuation(results) && p < n
    ensures |Written(buffer, results, 0, n)| == n && Written(buffer, results, 0, n)[p] == buffer[p]
  {
    WrittenLength(buffer, results, 0, n);
    var j := WriterOf(results, n, p);
    var x := p - Total(results, j);
    StartIsTotal(results, n, j);
    assert results[j] > 0;
    ByteOf(buffer, results, 0, n, j, x);
  }

  lemma WrittenRight(buffer: seq<byte>, results: seq<int>)
    requires Legal(results, |buffer|) && Succeeds(results) && AtMostOneContinuation(results)
    ensures Written(buffer, results, 0, |buffer|) == buffer
  {
    var n := |buffer|;
    WrittenLength(buffer, results, 0, n);
    forall p | 0 <= p < n ensures Written(buffer, results, 0, n)[p] == buffer[p] {
      ByteStays(buffer, results, n, p);
    }
  }

  /** _write: the value is what the last call returned. */
  method Write(buffer: seq<byte>, count0: nat, results: seq<int>) returns (sz: int, written: seq<byte>)
    requires count0 <= |buffer| && Legal(results, count0)
    ensures written == Written(buffer, results, 0, count0)
    ensures sz == results[|results| - 1]
    ensures sz == -1 <==> !Succeeds(results)
  {
    var count: nat, rest := count0, results;
    sz := rest[0];
    written := if sz == -1 then [] else buffer[..sz];
    OntoIsWritten([], buffer, results, 0, count0);
    assert [] + Written(buffer, results, 0, count0) == Written(buffer, results, 0, count0);
    assert sz != -1 ==> [] + buffer[0..sz] == written;
    while sz != count
      invariant Legal(rest, count) && count <= |buffer| && sz == rest[0]
      invariant rest[|rest| - 1] == results[|results| - 1]
      invariant Written(buffer, results, 0, count0) == AfterFirst(written, buffer, rest, count)
      decreases |rest|
    {
      if sz < 0 {
        return;
      }
      count := count - sz;
      var offset := sz;
      rest := rest[1..];
      sz := rest[0];
      if sz != -1 {
        written := written + buffer[offset..offset + sz];
      }
    }
  }

  /** The file after the calls, from what it holds before them. */
  function Onto(file: seq<byte>, buffer: seq<byte>, results: seq<int>, offset: nat, count: nat): seq<byte>
    requires Legal(results, count) && offset + count <= |buffer|
    decreases |results|, 1
  {
    if results[0] == -1 then file
    else AfterFirst(file + buffer[offset..offset + results[0]], buffer, results, count)
  }

  function AfterFirst(file: seq<byte>, buffer: seq<byte>, results: seq<int>, count: nat): seq<byte>
    requires Legal(results, count) && count <= |buffer|
    decreases |results|, 0
  {
    if results[0] == -1 || results[0] == count then file
    else Onto(file, buffer, results[1..], results[0], count - results[0])
  }

  lemma {:induction false} OntoIsWritten(file: seq<byte>, buffer: seq<byte>, results: seq<int>, offset: nat, count: nat)
    requires Legal(results, count) && offset + count <= |buffer|
    ensures Onto(file, buffer, results, offset, count) == file + Written(buffer, results, offset, count)
    decreases |results|
  {
    if results[0] == -1 {
      assert file + [] == file;
    } else if results[0] != count {
      var now := buffer[offset..offset + results[0]];
      OntoIsWritten(file + now, buffer, results[1..], results[0], count - results[0]);
      assert (file + now) + Written(buffer, results[1..], results[0], count - results[0])
          == file + (now + Written(buffer, results[1..], results[0], count - results[0]));
    }
  }

  datatype TimeStamp = TimeStamp(seconds: nat, nanoseconds: nat)
  {
    function Value(): nat {
      seconds * 0x1_0000_0000 + nanoseconds
    }
  }

  /** The difference of two 32-bit second counts, as unsigned. */
  function Age(now: TimeStamp, start: TimeStamp): nat {
    (now.seconds - start.seconds) % 0x1_0000_0000
  }

  /** A batch is young enough while the clock of 32-bit seconds is at most two past it. */
  lemma YoungAge(now: TimeStamp, start: TimeStamp)
    requires now.seconds < 0x1_0000_0000 && start.seconds < 0x1_0000_0000
    ensures Age(now, start) <= 2 <==>
            start.seconds <= now.seconds <= start.seconds + 2 || now.seconds + 0x1_0000_0000 <= start.seconds + 2
  {
  }

  /** Only the time of no seconds and no nanoseconds stands for no batch. */
  lemma NoTime(t: TimeStamp)
    ensures t.Value() == 0 <==> t == TimeStamp(0, 0)
  {
  }

  datatype Outcome = Stored | WriteFailed | TooLarge

  class BufferedFileWriter {
    var fd: int
    var count: nat
    var batchStart: TimeStamp
    const buffer: array<byte>
    ghost var file: seq<byte>
    ghost var log: seq<byte>      // everything written to this writer since it was opened

    /** The file, then the buffer's first bytes, are all that was written. */
    ghost predicate Valid()
      reads this, buffer
    {
      count <= buffer.Length && file + buffer[..count] == log
    }

    constructor (bufferSize: nat)
      ensures Valid() && log == [] && file == [] && count == 0 && fresh(buffer)
      ensures buffer.Length == bufferSize && fd == 0
    {
      buffer := new byte[bufferSize](_ => 0);
      fd, count, batchStart := 0, 0, TimeStamp(0, 0);
      file, log := [], [];
    }

    /** A new file takes the place of the one before; what is buffered goes to it. */
    method Open(descriptor: int, locked: bool) returns (ok: bool)
      requires Valid() && descriptor >= -1
      modifies this`fd, this`file, this`log
      ensures Valid() && fd == descriptor && file == [] && log == buffer[..count]
      ensures ok <==> descriptor != -1 && locked
    {
      fd := descriptor;
      file, log := [], buffer[..count];
      return fd != -1 && locked;
    }

    /** Write the buffer's contents; results is what write(2) answers. */
    method Flush(results: seq<int>) returns (ok: bool)
      requires Valid() && Legal(results, count) && AtMostOneContinuation(results)
      modifies this`count, this`file
      ensures ok == Succeeds(results)
      ensures ok ==> Valid() && count == 0 && file == log
      ensures !ok ==> count == old(count)
    {
      var sz, written := Write(buffer[..], count, results);
      if sz == -1 {
        file := file + written;
        return false;
      }
      WrittenPrefix(buffer[..], count, results);
      file := file + written;
      count := 0;
      return true;
    }

    method Append(data: seq<byte>)
      requires Valid() && |data| <= buffer.Length - count
      modifies this`count, this`log, buffer
      ensures Valid() && log == old(log) + data && count == old(count) + |data|
    {
      ghost var before := buffer[..count];
      for i := 0 to |data|
        invariant count == old(count) && file == old(file) && log == old(log)
        invariant forall k :: 0 <= k < count ==> buffer[k] == before[k]
        invariant forall k :: 0 <= k < i ==> buffer[count + k] == data[k]
      {
        buffer[count + i] := data[i];
      }
      assert buffer[..count + |data|] == before + data;
      assert file + (before + data) == (file + before) + data;
      count := count + |data|;
      log := log + data;
    }

    /** The datagram is in file or buffer afterwards, the buffer's batch is at most two
        seconds old, and only a datagram larger than the whole buffer is refused. */
    method WriteEvent(data: seq<byte>, timestamp: TimeStamp, results: seq<int>) returns (outcome: Outcome)
      requires Valid() && Legal(results, count) && AtMostOneContinuation(results)
      modifies this`count, this`batchStart, this`file, this`log, buffer
      ensures outcome == WriteFailed ==> !Succeeds(results) && count == old(count)
      ensures outcome == TooLarge ==> |data| > buffer.Length && Valid() && log == old(log)
      ensures outcome == Stored ==> |data| <= buffer.Length && Valid() && log == old(log) + data
      ensures outcome == Stored ==> Age(timestamp, batchStart) <= 2
      ensures Succeeds(results) ==> outcome != WriteFailed
      ensures var start := if old(batchStart).Value() == 0 then timestamp else old(batchStart);
              var joins := |data| <= buffer.Length - old(count) && Age(timestamp, start) <= 2;
              outcome == Stored ==>
                if joins then file == old(file) && count == old(count) + |data| && batchStart == start
                else file == old(log) && count == |data| && batchStart == timestamp
    {
      if batchStart.Value() == 0 {
        batchStart := timestamp;
      }
      if |data| > buffer.Length - count || Age(timestamp, batchStart) > 2 {
        var ok := Flush(results);
        if !ok {
          return WriteFailed;
        }
        batchStart := timestamp;
      }
      if |data| > buffer.Length - count {
        return TooLarge;
      }
      Append(data);
      return Stored;
    }

    /** Closing an open file leaves everything written in it. */
    method Close(results: seq<int>) returns (ok: bool)
      requires Valid() && Legal(results, count) && AtMostOneContinuation(results)
      modifies this
      ensures old(fd) > 0 && Succeeds(results) ==> Valid() && count == 0 && file == log == old(log)
      ensures ok == (old(fd) > 0)
      ensures ok ==> fd == 0
    {
      if fd <= 0 {
        return false;
      }
      if count > 0 {
        var written := Flush(results);
        count := 0;
        batchStart := TimeStamp(0, 0);
      }
      fd := 0;
      return true;
    }
  }

  lemma {:induction false} WrittenFromPrefix(buffer: seq<byte>, n: nat, results: seq<int>, offset: nat, count: nat)
    requires n <= |buffer| && offset + count <= n && Legal(results, count)
    ensures Written(buffer, results, offset, count) == Written(buffer[..n], results, offset, count)
  {
    if results[0] != -1 && results[0] != count {
      WrittenFromPrefix(buffer, n, results[1..], results[0], count - results[0]);
    }
  }

  lemma WrittenPrefix(buffer: seq<byte>, n: nat, results: seq<int>)
    requires n <= |buffer| && Legal(results, n) && Succeeds(results) && AtMostOneContinuation(results)
    ensures Written(buffer, results, 0, n) == buffer[..n]
  {
    WrittenFromPrefix(buffer, n, results, 0, n);
    ShortWrites(results, n);
  }
}
