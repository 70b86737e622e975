/** BufferedFileWriterMT of psdaq/drp/FileWriter.cc: a caller fills buffers and
    queues them, a thread writes them to the file and hands them back. */
module FileWriterMT {
  import opened Runs
  import opened Fifo
  import Bits
  import FW = FileWriter

  type TimeStamp = FW.TimeStamp

  type byte = Bits.byte

  /** The class Buffer: a place in memory and how much of it is used. */
  datatype Buffer = Buffer(p: nat, count: nat)

  /** Where the calling thread stands in writeEvent or flush. */
  datatype Caller =
    | Idle
    | Waiting(data: seq<byte>, time: TimeStamp)     // before the first m_free.pend()
    | Checking(data: seq<byte>, time: TimeStamp)    // m_free seen not empty
    | Rotating(data: seq<byte>, hand: Buffer)       // front popped, not yet pushed
    | WaitingAgain(data: seq<byte>)                 // before the second m_free.pend()
    | Filling(data: seq<byte>)
    | Testing                                       // flush begun
    | Flushing(hand: Buffer)
    | Draining                                      // before m_pend.pendn()

  /** Where the writer thread stands in run. */
  datatype Writer =
    | Polling
    | Writing(written: nat)    // bytes of m_pend.front() that write(2) took so far
    | Returning(slot: nat)     // popped; b still refers to the ring's slot
    | Cleared(slot: nat)       // b.count set to 0

  datatype State = State(
    bufferSize: nat, memory: seq<seq<byte>>, free: Ring<Buffer>, pend: Ring<Buffer>,
    caller: Caller, writer: Writer, file: seq<byte>,
    log: seq<byte>, flushed: nat, refused: nat, batchStart: TimeStamp)

  datatype Action =
    | BeginWrite(data: seq<byte>, time: TimeStamp)
    | SeeFree
    | Choose
    | Queue
    | SeeFreeAgain
    | Fill
    | BeginFlush
    | TestFront
    | Drain
    | SeePending
    | WriteSome(n: nat)
    | FinishWrite
    | Clear
    | Return

  /** A buffer's bytes. */
  function Bytes(memory: seq<seq<byte>>, b: Buffer): seq<byte> {
    if b.p < |memory| && b.count <= |memory[b.p]| then memory[b.p][..b.count] else []
  }

  function Front(r: Ring<Buffer>): Buffer
    requires r.head < |r.slots|
  {
    r.slots[r.head]
  }

  /** memcpy behind what a buffer holds. */
  function Copied(was: seq<byte>, at: nat, data: seq<byte>): seq<byte>
    requires at + |data| <= |was|
  {
    was[..at] + data + was[at + |data|..]
  }

  ghost predicate Sound(s: State) {
    s.free.head < |s.free.slots| && s.free.tail < |s.free.slots|
    && s.pend.head < |s.pend.slots| && s.pend.tail < |s.pend.slots|
  }

  ghost function Step(s: State, a: Action): Option<State> {
    if !Sound(s) then None
    else if a.BeginWrite? || a.SeeFree? || a.Choose? || a.Queue? || a.SeeFreeAgain? || a.Fill? then WriteStep(s, a)
    else if a.BeginFlush? || a.TestFront? || a.Drain? then FlushStep(s, a)
    else ThreadStep(s, a)
  }

  /** The batch in the front free buffer is too old for a datagram of this time. */
  predicate Stale(s: State, time: TimeStamp) {
    FW.Age(time, s.batchStart) > 2
  }

  /** writeEvent */
  ghost function WriteStep(s: State, a: Action): Option<State>
    requires Sound(s)
  {
    match a
    case BeginWrite(data, time) =>
      if !s.caller.Idle? then None
      else
        Some(s.(caller := Waiting(data, time), batchStart := if s.batchStart.Value() == 0 then time else s.batchStart))
    case SeeFree =>
      if !s.caller.Waiting? || s.free.count == 0 then None
      else Some(s.(caller := Checking(s.caller.data, s.caller.time)))
    case Choose =>
      if !s.caller.Checking? then None
      else if |s.caller.data| > s.bufferSize - Front(s.free).count || Stale(s, s.caller.time) then
        Some(s.(caller := Rotating(s.caller.data, Front(s.free)), free := Popped(s.free), batchStart := s.caller.time))
      else Some(s.(caller := Filling(s.caller.data)))
    case Queue =>
      if s.caller.Rotating? then
        Some(s.(caller := WaitingAgain(s.caller.data), pend := Pushed(s.pend, s.caller.hand)))
      else if s.caller.Flushing? then
        Some(s.(caller := Draining, pend := Pushed(s.pend, s.caller.hand)))
      else None
    case SeeFreeAgain =>
      if !s.caller.WaitingAgain? || s.free.count == 0 then None
      else Some(s.(caller := Filling(s.caller.data)))
    case Fill =>
      if !s.caller.Filling? then None
      else
        var b, data := Front(s.free), s.caller.data;
        if |data| > s.bufferSize - b.count then Some(s.(caller := Idle, refused := s.refused + 1))
        else if b.p >= |s.memory| || b.count + |data| > |s.memory[b.p]| then None
        else
          Some(s.(caller := Idle, log := s.log + data,
                  memory := s.memory[b.p := Copied(s.memory[b.p], b.count, data)],
                  free := s.free.(slots := s.free.slots[s.free.head := Buffer(b.p, b.count + |data|)])))
    case _ => None
  }

  ghost function FlushStep(s: State, a: Action): Option<State>
    requires Sound(s)
  {
    match a
    case BeginFlush =>
      if !s.caller.Idle? then None else Some(s.(caller := Testing))
    case TestFront =>
      if !s.caller.Testing? then None
      else if s.free.count > 0 && Front(s.free).count > 0 then
        Some(s.(caller := Flushing(Front(s.free)), free := Popped(s.free), batchStart := FW.TimeStamp(0, 0)))
      else Some(s.(caller := Draining))
    case Drain =>
      if !s.caller.Draining? || s.pend.count > 0 then None
      else Some(s.(caller := Idle, flushed := |s.log|))
    case _ => None
  }

  /** run */
  ghost function ThreadStep(s: State, a: Action): Option<State>
    requires Sound(s)
  {
    match a
    case SeePending =>
      if !s.writer.Polling? || s.pend.count == 0 then None else Some(s.(writer := Writing(0)))
    case WriteSome(n) =>
      var bytes := Bytes(s.memory, Front(s.pend));
      if !s.writer.Writing? || s.writer.written + n > |bytes| then None
      else
        var w := s.writer.written;
        Some(s.(writer := Writing(w + n), file := s.file + bytes[w..w + n]))
    case FinishWrite =>
      if !s.writer.Writing? || s.writer.written != Front(s.pend).count then None
      else Some(s.(writer := Returning(s.pend.head), pend := Popped(s.pend)))
    case Clear =>
      if !s.writer.Returning? || s.writer.slot >= |s.pend.slots| then None
      else
        var k := s.writer.slot;
        Some(s.(writer := Cleared(k), pend := s.pend.(slots := s.pend.slots[k := Buffer(s.pend.slots[k].p, 0)])))
    case Return =>
      if !s.writer.Cleared? || s.writer.slot >= |s.pend.slots| then None
      else Some(s.(writer := Polling, free := Pushed(s.free, s.pend.slots[s.writer.slot])))
    case _ => None
  }

  /** _initialize: every buffer is free and empty. */
  ghost predicate Initial(s: State) {
    && Valid(s.free) && Valid(s.pend) && |s.free.slots| == |s.pend.slots| == |s.memory|
    && s.free.count == |s.memory| && s.pend.count == 0
    && (forall i :: 0 <= i < |s.memory| ==> Contents(s.free)[i] == Buffer(i, 0) && |s.memory[i]| == s.bufferSize)
    && s.caller == Idle && s.writer == Polling && s.file == s.log == [] && s.flushed == 0
    && s.batchStart == FW.TimeStamp(0, 0)
  }

  function Hand(c: Caller): (r: seq<Buffer>)
    ensures |r| <= 1
  {
    if c.Rotating? || c.Flushing? then [c.hand] else []
  }

  ghost function InReturn(w: Writer, slots: seq<Buffer>): (r: seq<Buffer>)
    ensures |r| <= 1
  {
    if (w.Returning? || w.Cleared?) && w.slot < |slots| then [slots[w.slot]] else []
  }

  function Done(w: Writer): nat {
    if w.Writing? then w.written else 0
  }

  /** The bytes of a list of buffers, in order. */
  function All(memory: seq<seq<byte>>, buffers: seq<Buffer>): seq<byte> {
    if buffers == [] then [] else Bytes(memory, buffers[0]) + All(memory, buffers[1..])
  }

  /** Every buffer is in one place, and in range. */
  ghost predicate Conserved(memory: seq<seq<byte>>, bufferSize: nat, line: seq<Buffer>) {
    && |line| == |memory|
    && (forall i :: 0 <= i < |line| ==> line[i].p < |memory| && line[i].count <= bufferSize)
    && (forall i, j :: 0 <= i < j < |line| ==> line[i].p != line[j].p)
    && (forall p :: 0 <= p < |memory| ==> |memory[p]| == bufferSize)
  }

  ghost predicate Empty(buffers: seq<Buffer>) {
    forall i :: 0 <= i < |buffers| ==> buffers[i].count == 0
  }

  /** File, pending buffers, the one in hand and the front free one hold all that was written. */
  ghost predicate Complete(memory: seq<seq<byte>>, queue: seq<Buffer>, done: nat, file: seq<byte>, log: seq<byte>) {
    var bytes := All(memory, queue);
    done <= |bytes| && file + bytes[done..] == log
  }

  /** The buffers' places, in the order their bytes go to the file, and those bytes. */
  ghost predicate Core(memory: seq<seq<byte>>, bufferSize: nat, pend: seq<Buffer>, hand: seq<Buffer>, free: seq<Buffer>,
                       returning: seq<Buffer>, done: nat, file: seq<byte>, log: seq<byte>) {
    && Conserved(memory, bufferSize, pend + hand + free + returning)
    && Complete(memory, pend + hand + free, done, file, log)
  }

  /** Only the front free buffer holds anything, and not while another takes its place. */
  ghost predicate FreeAreEmpty(free: seq<Buffer>, c: Caller, bufferSize: nat) {
    && (free == [] || Empty(free[1..]))
    && (c.Rotating? || c.WaitingAgain? || c.Flushing? || c.Draining? ==> Empty(free))
    && (c.Checking? || c.Filling? ==> free != [])
    && (c.Filling? && free != [] ==> Empty(free) || |c.data| <= bufferSize - free[0].count)
  }

  ghost predicate WriterIn(w: Writer, pend: Ring<Buffer>)
    requires Valid(pend)
  {
    && (w.Writing? ==> pend.count > 0 && w.written <= Contents(pend)[0].count)
    && (w.Returning? || w.Cleared? ==>
          w.slot < |pend.slots| && pend.count < |pend.slots| &&
            w.slot == Wrap(pend.head + |pend.slots| - 1, |pend.slots|))
    && (w.Cleared? ==> pend.slots[w.slot].count == 0)
  }

  ghost predicate Inv(s: State) {
    && Valid(s.free) && Valid(s.pend) && |s.free.slots| == |s.pend.slots| == |s.memory| && |s.memory| > 0
    && WriterIn(s.writer, s.pend)
    && Core(s.memory, s.bufferSize, Contents(s.pend), Hand(s.caller), Contents(s.free),
            InReturn(s.writer, s.pend.slots), Done(s.writer), s.file, s.log)
    && FreeAreEmpty(Contents(s.free), s.caller, s.bufferSize)
    && s.flushed <= |s.file|
  }

  lemma {:induction false} AllConcat(memory: seq<seq<byte>>, a: seq<Buffer>, b: seq<Buffer>)
    ensures All(memory, a + b) == All(memory, a) + All(memory, b)
  {
    if a == [] {
      assert a + b == b;
    } else {
      AllConcat(memory, a[1..], b);
      assert (a + b)[1..] == a[1..] + b;
      Assoc(Bytes(memory, a[0]), All(memory, a[1..]), All(memory, b));
    }
  }

  lemma Assoc(a: seq<byte>, b: seq<byte>, c: seq<byte>)
    ensures (a + b) + c == a + (b + c)
  {
  }

  lemma {:induction false} AllEmpty(memory: seq<seq<byte>>, a: seq<Buffer>)
    requires Empty(a)
    ensures All(memory, a) == []
  {
    if a != [] {
      AllEmpty(memory, a[1..]);
    }
  }

  lemma FrontOnly(memory: seq<seq<byte>>, f: seq<Buffer>)
    requires f != [] && Empty(f[1..])
    ensures All(memory, f) == Bytes(memory, f[0])
  {
    AllEmpty(memory, f[1..]);
  }

  ghost predicate Apart(buffers: seq<Buffer>, p: nat) {
    forall i :: 0 <= i < |buffers| ==> buffers[i].p != p
  }

  /** Writing into one buffer's memory leaves the others' bytes. */
  lemma {:induction false} AllFrame(memory: seq<seq<byte>>, p: nat, m: seq<byte>, a: seq<Buffer>)
    requires p < |memory| && Apart(a, p)
    ensures All(memory[p := m], a) == All(memory, a)
  {
    if a != [] {
      AllFrame(memory, p, m, a[1..]);
    }
  }

  lemma CoreStart(memory: seq<seq<byte>>, bufferSize: nat, free: seq<Buffer>)
    requires |free| == |memory| && Empty(free) && forall i :: 0 <= i < |free| ==>
             free[i].p == i && |memory[i]| == bufferSize
    ensures Core(memory, bufferSize, [], [], free, [], 0, [], [])
  {
    assert [] + [] + free + [] == free && [] + [] + free == free;
    AllEmpty(memory, free);
  }

  lemma CoreTake(memory: seq<seq<byte>>, bufferSize: nat, pend: seq<Buffer>, free: seq<Buffer>,
                 returning: seq<Buffer>, done: nat, file: seq<byte>, log: seq<byte>)
    requires free != [] && Core(memory, bufferSize, pend, [], free, returning, done, file, log)
    ensures Core(memory, bufferSize, pend, [free[0]], free[1..], returning, done, file, log)
  {
    assert pend + [] + free == pend + [free[0]] + free[1..];
  }

  lemma CoreQueue(memory: seq<seq<byte>>, bufferSize: nat, pend: seq<Buffer>, hand: Buffer, free: seq<Buffer>,
                  returning: seq<Buffer>, done: nat, file: seq<byte>, log: seq<byte>)
    requires Core(memory, bufferSize, pend, [hand], free, returning, done, file, log)
    ensures Core(memory, bufferSize, pend + [hand], [], free, returning, done, file, log)
    ensures |pend| + |returning| < |memory|
  {
    assert pend + [hand] + [] == pend + [hand];
  }

  lemma CoreFinish(memory: seq<seq<byte>>, bufferSize: nat, pend: seq<Buffer>, hand: seq<Buffer>, free: seq<Buffer>,
                   file: seq<byte>, log: seq<byte>)
    requires pend != [] && Core(memory, bufferSize, pend, hand, free, [], pend[0].count, file, log)
    ensures Core(memory, bufferSize, pend[1..], hand, free, [pend[0]], 0, file, log)
  {
    var b, rest := pend[0], pend[1..] + hand + free;
    assert pend + hand + free == [b] + rest;
    assert [b] + rest + [] == [b] + rest;
    Rotated(memory, bufferSize, b, rest);
    BufferDone(memory, b, rest, file, log);
  }

  lemma Rotated(memory: seq<seq<byte>>, bufferSize: nat, b: Buffer, rest: seq<Buffer>)
    requires Conserved(memory, bufferSize, [b] + rest)
    ensures Conserved(memory, bufferSize, rest + [b])
    ensures b.p < |memory| && b.count <= |memory[b.p]|
  {
    var line := [b] + rest;
    assert line[0] == b;
    forall i | 0 <= i < |rest|
      ensures rest[i].p < |memory| && rest[i].count <= bufferSize && rest[i].p != b.p
    {
      assert line[i + 1] == rest[i];
    }
    forall i, j | 0 <= i < j < |rest| ensures rest[i].p != rest[j].p {
      assert line[i + 1] == rest[i] && line[j + 1] == rest[j];
    }
  }

  lemma BufferDone(memory: seq<seq<byte>>, b: Buffer, rest: seq<Buffer>, file: seq<byte>, log: seq<byte>)
    requires b.p < |memory| && b.count <= |memory[b.p]| && Complete(memory, [b] + rest, b.count, file, log)
    ensures Complete(memory, rest, 0, file, log)
  {
    assert ([b] + rest)[1..] == rest;
    assert All(memory, [b] + rest)[b.count..] == All(memory, rest)[0..];
  }

  lemma CoreClear(memory: seq<seq<byte>>, bufferSize: nat, pend: seq<Buffer>, hand: seq<Buffer>, free: seq<Buffer>,
                  b: Buffer, file: seq<byte>, log: seq<byte>)
    requires Core(memory, bufferSize, pend, hand, free, [b], 0, file, log)
    ensures Core(memory, bufferSize, pend, hand, free, [Buffer(b.p, 0)], 0, file, log)
  {
    var queue := pend + hand + free;
    var line := queue + [b];
    assert queue + [Buffer(b.p, 0)] == line[|queue| := Buffer(b.p, 0)];
    assert line[|queue|] == b;
  }

  lemma CoreReturn(memory: seq<seq<byte>>, bufferSize: nat, pend: seq<Buffer>, hand: seq<Buffer>, free: seq<Buffer>,
                   b: Buffer, file: seq<byte>, log: seq<byte>)
    requires b.count == 0 && Core(memory, bufferSize, pend, hand, free, [b], 0, file, log)
    ensures Core(memory, bufferSize, pend, hand, free + [b], [], 0, file, log)
    ensures |free| < |memory|
  {
    var queue := pend + hand + free;
    assert pend + hand + (free + [b]) == queue + [b];
    assert queue + [b] + [] == queue + [b];
    AllConcat(memory, queue, [b]);
    AllEmpty(memory, [b]);
    assert All(memory, queue) + [] == All(memory, queue);
  }

  lemma CoreWritten(memory: seq<seq<byte>>, bufferSize: nat, pend: seq<Buffer>, hand: seq<Buffer>, free: seq<Buffer>,
                    returning: seq<Buffer>, w: nat, n: nat, file: seq<byte>, log: seq<byte>)
    requires Core(memory, bufferSize, pend, hand, free, returning, w, file, log)
    requires pend != [] && w + n <= |Bytes(memory, pend[0])|
    ensures Core(memory, bufferSize, pend, hand, free, returning, w + n, file + Bytes(memory, pend[0])[w..w + n], log)
  {
    var queue := pend + hand + free;
    assert queue[0] == pend[0];
    MoreWritten(memory, queue, w, n, file, log);
  }

  lemma MoreWritten(memory: seq<seq<byte>>, queue: seq<Buffer>, w: nat, n: nat, file: seq<byte>, log: seq<byte>)
    requires queue != [] && w + n <= |Bytes(memory, queue[0])| && Complete(memory, queue, w, file, log)
    ensures Complete(memory, queue, w + n, file + Bytes(memory, queue[0])[w..w + n], log)
  {
    var bytes, all := Bytes(memory, queue[0]), All(memory, queue);
    assert all == bytes + All(memory, queue[1..]);
    assert bytes[w..w + n] == all[w..w + n];
    assert all[w..] == all[w..w + n] + all[w + n..];
    Assoc(file, bytes[w..w + n], all[w + n..]);
  }

  lemma CoreFill(memory: seq<seq<byte>>, bufferSize: nat, pend: seq<Buffer>, f: seq<Buffer>, returning: seq<Buffer>,
                 done: nat, file: seq<byte>, log: seq<byte>, data: seq<byte>)
    requires f != [] && Empty(f[1..]) && f[0].count + |data| <= bufferSize
    requires Core(memory, bufferSize, pend, [], f, returning, done, file, log)
    ensures f[0].p < |memory| && |memory[f[0].p]| == bufferSize
    ensures Core(memory[f[0].p := Copied(memory[f[0].p], f[0].count, data)], bufferSize,
                 pend, [], [Buffer(f[0].p, f[0].count + |data|)] + f[1..], returning, done, file, log + data)
  {
    var b' := Buffer(f[0].p, f[0].count + |data|);
    FillLine(memory, bufferSize, pend, f, returning, data);
    var memory' := memory[f[0].p := Copied(memory[f[0].p], f[0].count, data)];
    FillBytes(memory, memory', pend, f, [b'] + f[1..], data);
    assert pend + [] == pend;
    FillComplete(memory, memory', pend + f, pend + ([b'] + f[1..]), done, file, log, data);
  }

  lemma FillLine(memory: seq<seq<byte>>, bufferSize: nat, pend: seq<Buffer>, f: seq<Buffer>, r: seq<Buffer>,
                 data: seq<byte>)
    requires f != [] && Conserved(memory, bufferSize, pend + [] + f + r) && f[0].count + |data| <= bufferSize
    ensures f[0].p < |memory| && |memory[f[0].p]| == bufferSize
    ensures var b' := Buffer(f[0].p, f[0].count + |data|);
            Conserved(memory[f[0].p := Copied(memory[f[0].p], f[0].count, data)], bufferSize,
                      pend + [] + ([b'] + f[1..]) + r)
    ensures Apart(pend, f[0].p)
  {
    var line, k := pend + [] + f + r, |pend|;
    assert line[k] == f[0];
    assert pend + [] + ([Buffer(f[0].p, f[0].count + |data|)] + f[1..]) + r
        == line[k := Buffer(f[0].p, f[0].count + |data|)];
    forall i | 0 <= i < |pend| ensures pend[i].p != f[0].p {
      assert line[i] == pend[i];
    }
  }

  lemma FillBytes(memory: seq<seq<byte>>, memory': seq<seq<byte>>, pend: seq<Buffer>, f: seq<Buffer>, f': seq<Buffer>,
                  data: seq<byte>)
    requires f != [] && f' != [] && f'[1..] == f[1..] && Empty(f[1..]) && f[0].p < |memory| && Apart(pend, f[0].p)
    requires f[0].count + |data| <= |memory[f[0].p]|
    requires memory' == memory[f[0].p := Copied(memory[f[0].p], f[0].count, data)]
    requires f'[0] == Buffer(f[0].p, f[0].count + |data|)
    ensures All(memory', pend + f') == All(memory, pend + f) + data
  {
    AllFrame(memory, f[0].p, memory'[f[0].p], pend);
    AllConcat(memory, pend, f);
    AllConcat(memory', pend, f');
    FrontOnly(memory, f);
    FrontOnly(memory', f');
    CopiedBytes(memory[f[0].p], f[0].count, data);
    Assoc(All(memory, pend), Bytes(memory, f[0]), data);
  }

  lemma CopiedBytes(m: seq<byte>, at: nat, data: seq<byte>)
    requires at + |data| <= |m|
    ensures |Copied(m, at, data)| == |m|
    ensures Copied(m, at, data)[..at + |data|] == m[..at] + data
  {
  }

  lemma FillComplete(memory: seq<seq<byte>>, memory': seq<seq<byte>>, queue: seq<Buffer>, queue': seq<Buffer>,
                     done: nat, file: seq<byte>, log: seq<byte>, data: seq<byte>)
    requires Complete(memory, queue, done, file, log) && All(memory', queue') == All(memory, queue) + data
    ensures Complete(memory', queue', done, file, log + data)
  {
    assert (All(memory, queue) + data)[done..] == All(memory, queue)[done..] + data;
    Assoc(file, All(memory, queue)[done..], data);
  }

  lemma FrontIs(r: Ring<Buffer>)
    requires Valid(r) && r.count > 0
    ensures Front(r) == Contents(r)[0]
  {
    PopContents(r);
  }

  lemma InitialInv(s: State)
    requires Initial(s) && |s.memory| > 0
    ensures Inv(s)
  {
    CoreStart(s.memory, s.bufferSize, Contents(s.free));
  }

  lemma TakeFront(s: State, s': State)
    requires Inv(s) && s.free.count > 0 && Hand(s.caller) == []
    requires s' == s.(caller := s'.caller, free := Popped(s.free), batchStart := s'.batchStart)
    requires (s'.caller.Rotating? || s'.caller.Flushing?) && s'.caller.hand == Front(s.free)
    ensures Inv(s')
  {
    PopContents(s.free);
    CoreTake(s.memory, s.bufferSize, Contents(s.pend), Contents(s.free), InReturn(s.writer, s.pend.slots),
             Done(s.writer), s.file, s.log);
  }

  lemma ChooseInv(s: State)
    requires Inv(s) && Step(s, Choose).Some?
    ensures Inv(Step(s, Choose).value)
  {
    PopContents(s.free);
    if Step(s, Choose).value.caller.Rotating? {
      TakeFront(s, Step(s, Choose).value);
    }
  }

  lemma TestFrontInv(s: State)
    requires Inv(s) && Step(s, TestFront).Some?
    ensures Inv(Step(s, TestFront).value)
  {
    PopContents(s.free);
    if Step(s, TestFront).value.caller.Flushing? {
      TakeFront(s, Step(s, TestFront).value);
    }
  }

  lemma QueueSlot(r: Ring<Buffer>, item: Buffer, w: Writer)
    requires Valid(r) && WriterIn(w, r) && r.count + |InReturn(w, r.slots)| < |r.slots|
    ensures Valid(Pushed(r, item)) && WriterIn(w, Pushed(r, item))
    ensures InReturn(w, Pushed(r, item).slots) == InReturn(w, r.slots)
  {
    PushContents(r, item);
  }

  lemma QueueInv(s: State)
    requires Inv(s) && Step(s, Queue).Some?
    ensures Inv(Step(s, Queue).value)
  {
    CoreQueue(s.memory, s.bufferSize, Contents(s.pend), s.caller.hand, Contents(s.free),
              InReturn(s.writer, s.pend.slots), Done(s.writer), s.file, s.log);
    QueueSlot(s.pend, s.caller.hand, s.writer);
    PushContents(s.pend, s.caller.hand);
  }

  /** When flush returns, the file holds everything written. */
  lemma DrainedIsComplete(s: State)
    requires Inv(s) && s.caller.Draining? && s.pend.count == 0
    ensures s.file == s.log
  {
    var queue := Contents(s.pend) + Hand(s.caller) + Contents(s.free);
    assert queue == Contents(s.free);
    AllEmpty(s.memory, queue);
    assert s.file + [] == s.file;
  }

  /** A step of the caller that touches neither ring. */
  lemma CallerInv(s: State, a: Action)
    requires Inv(s) && Step(s, a).Some?
    requires a.BeginWrite? || a.SeeFree? || a.SeeFreeAgain? || a.BeginFlush? || a.Drain?
    ensures Inv(Step(s, a).value)
  {
    if a.Drain? {
      DrainedIsComplete(s);
    }
    Assemble(Step(s, a).value, Contents(s.pend), Contents(s.free), InReturn(s.writer, s.pend.slots));
  }

  lemma FrontOfFree(f: seq<Buffer>, b: Buffer, bufferSize: nat)
    requires f != [] && Empty(f[1..])
    ensures FreeAreEmpty([b] + f[1..], Idle, bufferSize)
  {
    assert ([b] + f[1..])[1..] == f[1..];
  }

  /** The copy in the step that accepts the datagram. */
  function Filled(s: State, b: Buffer, data: seq<byte>): State
    requires s.free.head < |s.free.slots| && b.p < |s.memory| && b.count + |data| <= |s.memory[b.p]|
  {
    s.(caller := Idle, log := s.log + data,
       memory := s.memory[b.p := Copied(s.memory[b.p], b.count, data)],
       free := s.free.(slots := s.free.slots[s.free.head := Buffer(b.p, b.count + |data|)]))
  }

  lemma FillStep(s: State, b: Buffer, data: seq<byte>)
    requires Sound(s) && s.caller == Filling(data) && Front(s.free) == b && b.p < |s.memory|
    requires |data| <= s.bufferSize - b.count && |s.memory[b.p]| == s.bufferSize
    ensures Step(s, Fill) == Some(Filled(s, b, data))
  {
  }

  lemma FillInv(s: State)
    requires Inv(s) && Step(s, Fill).Some?
    ensures Inv(Step(s, Fill).value)
  {
    var f, data := Contents(s.free), s.caller.data;
    FrontIs(s.free);
    if |data| <= s.bufferSize - f[0].count {
      AcceptInv(s, f, data);
    }
  }

  /** The front free buffer holds the datagram too. */
  lemma AcceptRing(s: State, f: seq<Buffer>, b: Buffer)
    requires Inv(s) && s.caller.Filling? && f == Contents(s.free) && f != []
    ensures var free := s.free.(slots := s.free.slots[s.free.head := b]);
            && Valid(free) && |free.slots| == |s.free.slots| && Contents(free) == [b] + f[1..]
            && FreeAreEmpty([b] + f[1..], Idle, s.bufferSize)
  {
    FrontChanged(s.free, b);
    FrontOfFree(f, b, s.bufferSize);
  }

  lemma AcceptInv(s: State, f: seq<Buffer>, data: seq<byte>)
    requires Inv(s) && s.caller == Filling(data) && f == Contents(s.free) && f != [] && Front(s.free) == f[0]
    requires |data| <= s.bufferSize - f[0].count
    ensures Step(s, Fill).Some? && Inv(Step(s, Fill).value)
  {
    var pend, returning := Contents(s.pend), InReturn(s.writer, s.pend.slots);
    AcceptRing(s, f, Buffer(f[0].p, f[0].count + |data|));
    CoreFill(s.memory, s.bufferSize, pend, f, returning, Done(s.writer), s.file, s.log, data);
    FillStep(s, f[0], data);
    FilledInv(s, f, data, pend, returning);
  }

  lemma FilledInv(s: State, f: seq<Buffer>, data: seq<byte>, pend: seq<Buffer>, returning: seq<Buffer>)
    requires s.free.head < |s.free.slots| && f != [] && f[0].p < |s.memory| && f[0].count + |data| <= |s.memory[f[0].p]|
    requires var t, b := Filled(s, f[0], data), Buffer(f[0].p, f[0].count + |data|);
             && Valid(t.free) && Valid(t.pend) && |t.free.slots| == |t.pend.slots| == |t.memory| && |t.memory| > 0
             && Contents(t.pend) == pend && Contents(t.free) == [b] + f[1..] &&
                InReturn(t.writer, t.pend.slots) == returning
             && WriterIn(t.writer, t.pend) && t.flushed <= |t.file| && FreeAreEmpty([b] + f[1..], Idle, t.bufferSize)
             && Core(t.memory, t.bufferSize, pend, [], [b] + f[1..], returning, Done(t.writer), t.file, t.log)
    ensures Inv(Filled(s, f[0], data))
  {
    Assemble(Filled(s, f[0], data), pend, [Buffer(f[0].p, f[0].count + |data|)] + f[1..], returning);
  }

  /** The invariant, from its parts. */
  lemma Assemble(s: State, pend: seq<Buffer>, free: seq<Buffer>, returning: seq<Buffer>)
    requires Valid(s.free) && Valid(s.pend) && |s.free.slots| == |s.pend.slots| == |s.memory| && |s.memory| > 0
    requires Contents(s.pend) == pend && Contents(s.free) == free && InReturn(s.writer, s.pend.slots) == returning
    requires WriterIn(s.writer, s.pend) && s.flushed <= |s.file|
    requires FreeAreEmpty(free, s.caller, s.bufferSize)
    requires Core(s.memory, s.bufferSize, pend, Hand(s.caller), free, returning, Done(s.writer), s.file, s.log)
    ensures Inv(s)
  {
  }

  lemma WriteSomeStep(s: State, n: nat, b: Buffer)
    requires Sound(s) && Front(s.pend) == b && Step(s, WriteSome(n)).Some?
    ensures s.writer.Writing? && s.writer.written + n <= |Bytes(s.memory, b)|
    ensures var w := s.writer.written;
            Step(s, WriteSome(n)) == Some(s.(writer := Writing(w + n), file := s.file + Bytes(s.memory, b)[w..w + n]))
  {
  }

  /** The front pending buffer, which the thread is writing. */
  lemma BeingWritten(s: State)
    requires Inv(s) && s.writer.Writing?
    ensures Contents(s.pend) != [] && Front(s.pend) == Contents(s.pend)[0]
    ensures var b := Contents(s.pend)[0]; b.p < |s.memory| && b.count <= |s.memory[b.p]| && s.writer.written <= b.count
    ensures Core(s.memory, s.bufferSize, Contents(s.pend), Hand(s.caller), Contents(s.free), [], s.writer.written,
            s.file, s.log)
  {
    FrontIs(s.pend);
    FrontInRange(s);
  }

  lemma WrittenInv(s: State, w: nat, more: seq<byte>)
    requires Inv(s) && s.writer.Writing? && Contents(s.pend) != [] && w <= Contents(s.pend)[0].count
    requires Core(s.memory, s.bufferSize, Contents(s.pend), Hand(s.caller), Contents(s.free), [], w, s.file + more,
             s.log)
    ensures Inv(s.(writer := Writing(w), file := s.file + more))
  {
    Assemble(s.(writer := Writing(w), file := s.file + more), Contents(s.pend), Contents(s.free), []);
  }

  lemma WriteSomeInv(s: State, n: nat)
    requires Inv(s) && Step(s, WriteSome(n)).Some?
    ensures Inv(Step(s, WriteSome(n)).value)
  {
    var pend, w := Contents(s.pend), s.writer.written;
    BeingWritten(s);
    WriteSomeStep(s, n, pend[0]);
    CoreWritten(s.memory, s.bufferSize, pend, Hand(s.caller), Contents(s.free), [], w, n, s.file, s.log);
    WrittenInv(s, w + n, Bytes(s.memory, pend[0])[w..w + n]);
  }

  lemma PopSlot(r: Ring<Buffer>)
    requires Valid(r) && r.count > 0
    ensures Valid(Popped(r)) && |Popped(r).slots| == |r.slots| && Contents(Popped(r)) == Contents(r)[1..]
    ensures Front(r) == Contents(r)[0]
    ensures WriterIn(Returning(r.head), Popped(r)) && InReturn(Returning(r.head), Popped(r).slots) == [Contents(r)[0]]
  {
    PopContents(r);
  }

  lemma FinishWriteInv(s: State)
    requires Inv(s) && Step(s, FinishWrite).Some?
    ensures Inv(Step(s, FinishWrite).value)
  {
    PopSlot(s.pend);
    var pend := Contents(s.pend);
    CoreFinish(s.memory, s.bufferSize, pend, Hand(s.caller), Contents(s.free), s.file, s.log);
    Assemble(Step(s, FinishWrite).value, pend[1..], Contents(s.free), [pend[0]]);
  }

  /** The slot b refers to is outside the ring's contents, so clearing it is safe. */
  lemma ClearInv(s: State)
    requires Inv(s) && Step(s, Clear).Some?
    ensures Inv(Step(s, Clear).value)
  {
    var b := s.pend.slots[s.writer.slot];
    SlotCleared(s.pend, s.writer.slot);
    CoreClear(s.memory, s.bufferSize, Contents(s.pend), Hand(s.caller), Contents(s.free), b, s.file, s.log);
    Assemble(Step(s, Clear).value, Contents(s.pend), Contents(s.free), [Buffer(b.p, 0)]);
  }

  lemma SlotCleared(r: Ring<Buffer>, k: nat)
    requires Valid(r) && WriterIn(Returning(k), r)
    ensures var r' := r.(slots := r.slots[k := Buffer(r.slots[k].p, 0)]);
            Valid(r') && Contents(r') == Contents(r) && WriterIn(Cleared(k), r')
  {
  }

  lemma FreeGrows(free: seq<Buffer>, b: Buffer, c: Caller, bufferSize: nat)
    requires FreeAreEmpty(free, c, bufferSize) && b.count == 0
    ensures FreeAreEmpty(free + [b], c, bufferSize)
  {
    if free != [] {
      assert (free + [b])[1..] == free[1..] + [b];
    }
  }

  lemma ReturnTo(free: Ring<Buffer>, b: Buffer, c: Caller, bufferSize: nat)
    requires Valid(free) && free.count < |free.slots| && FreeAreEmpty(Contents(free), c, bufferSize) && b.count == 0
    ensures Valid(Pushed(free, b)) && |Pushed(free, b).slots| == |free.slots|
    ensures Contents(Pushed(free, b)) == Contents(free) + [b]
    ensures FreeAreEmpty(Contents(free) + [b], c, bufferSize)
  {
    PushContents(free, b);
    FreeGrows(Contents(free), b, c, bufferSize);
  }

  lemma ReturnInv(s: State)
    requires Inv(s) && Step(s, Return).Some?
    ensures Inv(Step(s, Return).value)
  {
    var b := s.pend.slots[s.writer.slot];
    CoreReturn(s.memory, s.bufferSize, Contents(s.pend), Hand(s.caller), Contents(s.free), b, s.file, s.log);
    ReturnTo(s.free, b, s.caller, s.bufferSize);
    Assemble(Step(s, Return).value, Contents(s.pend), Contents(s.free) + [b], []);
  }

  lemma StepInv(s: State, a: Action)
    requires Inv(s) && Step(s, a).Some?
    ensures Inv(Step(s, a).value)
  {
    match a
    case Choose => ChooseInv(s);
    case Queue => QueueInv(s);
    case Fill => FillInv(s);
    case TestFront => TestFrontInv(s);
    case WriteSome(n) => WriteSomeInv(s, n);
    case FinishWrite => FinishWriteInv(s);
    case Clear => ClearInv(s);
    case Return => ReturnInv(s);
    case SeePending => assert Step(s, a).value == s.(writer := Writing(0));
    case _ => CallerInv(s, a);
  }

  ghost predicate Reachable(s0: State, acts: seq<Action>, s: State) {
    Initial(s0) && |s0.memory| > 0 && Exec(Step, s0, acts) == Some(s)
  }

  lemma ReachableInv(s0: State, acts: seq<Action>, s: State)
    requires Reachable(s0, acts, s)
    ensures Inv(s)
  {
    InitialInv(s0);
    forall t: State, a: Action {:trigger Step(t, a)} | Inv(t) && Step(t, a).Some? ensures Inv(Step(t, a).value) {
      StepInv(t, a);
    }
    Runs.Invariant(Step, Inv, s0, acts);
  }

  /** At any moment of any run the file is a prefix of what was written, the rest is
      in the buffers in order, and no buffer is lost or in two places. */
  lemma NothingLost(s0: State, acts: seq<Action>, s: State)
    requires Reachable(s0, acts, s)
    ensures Inv(s) && s.file <= s.log
    ensures s.file + All(s.memory, Contents(s.pend) + Hand(s.caller) + Contents(s.free))[Done(s.writer)..] == s.log
    ensures s.pend.count + |Hand(s.caller)| + s.free.count + |InReturn(s.writer, s.pend.slots)| == |s.memory|
  {
    ReachableInv(s0, acts, s);
  }

  /** When flush returns, everything written before is in the file. */
  lemma FlushReturns(s0: State, acts: seq<Action>, s: State, t: State)
    requires Reachable(s0, acts, s) && Step(s, Drain) == Some(t)
    ensures t.file == t.log && t.flushed == |t.log|
  {
    ReachableInv(s0, acts, s);
    DrainedIsComplete(s);
  }

  lemma FreeFrontInRange(memory: seq<seq<byte>>, bufferSize: nat, pend: seq<Buffer>, hand: seq<Buffer>,
                         free: seq<Buffer>,
                         returning: seq<Buffer>)
    requires free != [] && Conserved(memory, bufferSize, pend + hand + free + returning)
    ensures free[0].p < |memory| && |memory[free[0].p]| == bufferSize && free[0].count <= bufferSize
  {
    assert (pend + hand + free + returning)[|pend + hand|] == free[0];
  }

  lemma PendFrontInRange(memory: seq<seq<byte>>, bufferSize: nat, pend: seq<Buffer>, hand: seq<Buffer>,
                         free: seq<Buffer>,
                         returning: seq<Buffer>)
    requires pend != [] && Conserved(memory, bufferSize, pend + hand + free + returning)
    ensures pend[0].p < |memory| && |memory[pend[0].p]| == bufferSize && pend[0].count <= bufferSize
  {
    assert (pend + hand + free + returning)[0] == pend[0];
  }

  lemma FrontInMemory(s: State)
    requires Inv(s) && s.free.count > 0
    ensures var b := Contents(s.free)[0];
            b.p < |s.memory| && |s.memory[b.p]| == s.bufferSize && b.count <= s.bufferSize && Front(s.free) == b
  {
    FrontIs(s.free);
    FreeFrontInRange(s.memory, s.bufferSize, Contents(s.pend), Hand(s.caller), Contents(s.free),
      InReturn(s.writer, s.pend.slots));
  }

  lemma FillOutcome(s: State)
    requires Inv(s) && s.caller.Filling?
    ensures Step(s, Fill).Some?
    ensures Step(s, Fill).value.refused > s.refused <==> |s.caller.data| > s.bufferSize
    ensures |s.caller.data| <= s.bufferSize ==> Step(s, Fill).value.log == s.log + s.caller.data
  {
    FrontIs(s.free);
    FreeFrontInRange(s.memory, s.bufferSize, Contents(s.pend), Hand(s.caller), Contents(s.free),
      InReturn(s.writer, s.pend.slots));
  }

  lemma FrontInRange(s: State)
    requires Inv(s) && s.pend.count > 0
    ensures Front(s.pend).p < |s.memory| && Front(s.pend).count <= |s.memory[Front(s.pend).p]|
  {
    FrontIs(s.pend);
    PendFrontInRange(s.memory, s.bufferSize, Contents(s.pend), Hand(s.caller), Contents(s.free),
      InReturn(s.writer, s.pend.slots));
  }

  /** writeEvent refuses exactly the datagrams larger than a whole buffer. */
  lemma RefusedIsTooLarge(s0: State, acts: seq<Action>, s: State)
    requires Reachable(s0, acts, s) && s.caller.Filling?
    ensures Step(s, Fill).Some?
    ensures Step(s, Fill).value.refused > s.refused <==> |s.caller.data| > s.bufferSize
    ensures |s.caller.data| <= s.bufferSize ==> Step(s, Fill).value.log == s.log + s.caller.data
  {
    ReachableInv(s0, acts, s);
    FillOutcome(s);
  }

  /** What some thread can do next. */
  ghost function Next(s: State): Action {
    if s.caller.Checking? then Choose
    else if s.caller.Rotating? || s.caller.Flushing? then Queue
    else if s.caller.Filling? then Fill
    else if s.caller.Testing? then TestFront
    else if s.writer.Returning? then Clear
    else if s.writer.Cleared? then Return
    else if s.writer.Writing? && Sound(s) then
      if s.writer.written < Front(s.pend).count then WriteSome(Front(s.pend).count - s.writer.written) else FinishWrite
    else if s.pend.count > 0 then SeePending
    else if s.caller.Draining? then Drain
    else if s.caller.Waiting? then SeeFree
    else SeeFreeAgain
  }

  predicate AtRest(s: State) {
    s.caller.Idle? && s.writer.Polling? && s.pend.count == 0
  }

  lemma FrontCanBeWritten(s: State)
    requires Inv(s) && s.writer.Writing?
    ensures Sound(s) && s.pend.count > 0
    ensures var b := Front(s.pend); s.writer.written <= b.count == |Bytes(s.memory, b)|
  {
    FrontIs(s.pend);
    FrontInRange(s);
  }

  lemma WriterCanStep(s: State)
    requires Inv(s) && (!s.writer.Polling? || s.pend.count > 0)
    requires s.caller.Idle? || s.caller.Waiting? || s.caller.WaitingAgain? || s.caller.Draining?
    ensures Step(s, Next(s)).Some? && Works(Next(s))
  {
    if s.writer.Writing? {
      FrontCanBeWritten(s);
    }
  }

  lemma CallerCanStep(s: State)
    requires Inv(s) && !s.caller.Idle? && s.writer.Polling? && s.pend.count == 0
    requires s.caller.Waiting? || s.caller.WaitingAgain? || s.caller.Draining?
    ensures Step(s, Next(s)).Some? && Works(Next(s))
  {
  }

  lemma CanStep(s: State)
    requires Inv(s) && !AtRest(s)
    ensures Step(s, Next(s)).Some? && Works(Next(s))
  {
    if s.caller.Filling? {
      FillOutcome(s);
    } else if s.caller.Idle? || s.caller.Waiting? || s.caller.WaitingAgain? || s.caller.Draining? {
      if !s.writer.Polling? || s.pend.count > 0 {
        WriterCanStep(s);
      } else {
        CallerCanStep(s);
      }
    }
  }

  /** Neither a new call nor a write(2) that takes nothing. */
  predicate Works(a: Action) {
    !a.BeginWrite? && !a.BeginFlush? && (a.WriteSome? ==> a.n > 0)
  }

  /** No deadlock: unless there is nothing to do, some thread can go on. */
  lemma SomeThreadCanStep(s0: State, acts: seq<Action>, s: State)
    requires Reachable(s0, acts, s) && !AtRest(s)
    ensures Step(s, Next(s)).Some? && !Next(s).BeginWrite? && !Next(s).BeginFlush?
  {
    ReachableInv(s0, acts, s);
    CanStep(s);
  }

  /** The datagram of the call underway, until it is copied. */
  function Underway(c: Caller): seq<byte> {
    match c
    case Waiting(data, _) => data
    case Checking(data, _) => data
    case Rotating(data, _) => data
    case WaitingAgain(data) => data
    case Filling(data) => data
    case _ => []
  }

  /** How many steps the caller's call and the thread's turn are from their ends, where
      a buffer queued costs five. */
  function CallerSteps(c: Caller): nat {
    match c
    case Idle => 0
    case Waiting(_, _) => 10
    case Checking(_, _) => 9
    case Rotating(_, _) => 8
    case WaitingAgain(_) => 2
    case Filling(_) => 1
    case Testing => 8
    case Flushing(_) => 7
    case Draining => 1
  }

  function WriterSteps(w: Writer): int {
    match w
    case Polling => 0
    case Writing(_) => -1
    case Returning(_) => 2
    case Cleared(_) => 1
  }

  /** The work there is: bytes not yet in the file, buffers queued, and steps. */
  function Work(s: State): int {
    |s.log| + |Underway(s.caller)| - |s.file| + 5 * s.pend.count + CallerSteps(s.caller) + WriterSteps(s.writer)
  }

  lemma WorkIsLeft(s: State)
    requires Inv(s)
    ensures Work(s) >= 0
  {
    assert s.file <= s.log;
  }

  lemma CallerWorks(s: State, a: Action)
    requires Sound(s) && Works(a) && !a.Fill?
    requires WriteStep(s, a).Some? || FlushStep(s, a).Some?
    ensures WriteStep(s, a).Some? ==> Work(WriteStep(s, a).value) < Work(s)
    ensures FlushStep(s, a).Some? ==> Work(FlushStep(s, a).value) < Work(s)
  {
  }

  lemma ThreadWorks(s: State, a: Action)
    requires Sound(s) && Works(a) && ThreadStep(s, a).Some? && (s.writer.Writing? ==> s.pend.count > 0)
    ensures Work(ThreadStep(s, a).value) < Work(s)
  {
  }

  /** Every step does some of it. */
  lemma StepWorks(s: State, a: Action)
    requires Inv(s) && Step(s, a).Some? && Works(a)
    ensures Work(Step(s, a).value) < Work(s)
  {
    if a.Fill? {
      FillOutcome(s);
    } else if a.SeePending? || a.WriteSome? || a.FinishWrite? || a.Clear? || a.Return? {
      ThreadWorks(s, a);
    } else {
      CallerWorks(s, a);
    }
  }

  /** With no new call the threads are done after at most that many steps, however they
      are scheduled: until they are, one of them can step; so writeEvent and flush return. */
  lemma {:induction false} WorkEnds(s0: State, acts: seq<Action>, s: State, more: seq<Action>, t: State)
    requires Reachable(s0, acts, s) && Exec(Step, s, more) == Some(t) && forall i :: 0 <= i < |more| ==> Works(more[i])
    ensures |more| + Work(t) <= Work(s) && Work(t) >= 0
    ensures AtRest(t) || (Step(t, Next(t)).Some? && Works(Next(t)))
  {
    ReachableInv(s0, acts, s);
    RunWorks(s, more, t);
    if !AtRest(t) {
      CanStep(t);
    }
  }

  lemma {:induction false} RunWorks(s: State, more: seq<Action>, t: State)
    requires Inv(s) && Exec(Step, s, more) == Some(t) && forall i :: 0 <= i < |more| ==> Works(more[i])
    ensures Inv(t) && |more| + Work(t) <= Work(s) && Work(t) >= 0
  {
    if more == [] {
      WorkIsLeft(s);
    } else {
      var n := |more| - 1;
      var u := Exec(Step, s, more[..n]).value;
      RunWorks(s, more[..n], u);
      StepInv(u, more[n]);
      StepWorks(u, more[n]);
      WorkIsLeft(t);
    }
  }

  /** The writer object: each method is a stretch of one thread's code between two
      places where it may wait, and does what the machine's actions do. */
  class BufferedFileWriterMT {
    const bufferSize: nat
    const free: FifoRing<Buffer>
    const pend: FifoRing<Buffer>
    var memory: seq<seq<byte>>
    var caller: Caller
    var writer: Writer
    var batchStart: TimeStamp
    ghost var file: seq<byte>
    ghost var log: seq<byte>
    ghost var flushed: nat
    ghost var refused: nat

    ghost function View(): State
      reads this, free, pend, free.items, pend.items
    {
      State(bufferSize, memory, free.View(), pend.View(), caller, writer, file, log, flushed, refused,
            batchStart)
    }

    ghost predicate Rings()
      reads this, free, pend, free.items, pend.items
    {
      free != pend && free.items != pend.items && Valid(free.View()) && Valid(pend.View())
    }

    ghost predicate Good()
      reads this, free, pend, free.items, pend.items
    {
      Rings() && Inv(View())
    }

    /** _initialize: depth empty buffers, all free. */
    constructor (bufferSize: nat, depth: nat)
      requires depth > 0
      ensures Good() && Initial(View()) && |memory| == depth
      ensures this.bufferSize == bufferSize && fresh(free) && fresh(pend)
    {
      this.bufferSize := bufferSize;
      free := new FifoRing<Buffer>(depth, Buffer(0, 0));
      pend := new FifoRing<Buffer>(depth, Buffer(0, 0));
      memory := seq(depth, _ => seq(bufferSize, _ => 0));
      caller, writer, batchStart := Idle, Polling, FW.TimeStamp(0, 0);
      file, log, flushed, refused := [], [], 0, 0;
      new;
      FillFree(depth);
      InitialInv(View());
    }

    method FillFree(depth: nat)
      requires Valid(free.View()) && Contents(free.View()) == [] && free.items.Length == depth
      modifies free, free.items
      ensures Valid(free.View()) && free.count == depth && |free.View().slots| == depth
      ensures forall i :: 0 <= i < depth ==> Contents(free.View())[i] == Buffer(i, 0)
    {
      for i := 0 to depth
        invariant Valid(free.View()) && free.count == i
        invariant forall k :: 0 <= k < i ==> Contents(free.View())[k] == Buffer(k, 0)
      {
        var full := free.Push(Buffer(i, 0));
      }
    }

    /** writeEvent up to its first wait. */
    method StartWrite(data: seq<byte>, timestamp: TimeStamp)
      requires caller.Idle? && Rings()
      modifies this`caller, this`batchStart
      ensures Some(View()) == Step(old(View()), BeginWrite(data, timestamp))
    {
      if batchStart.Value() == 0 {
        batchStart := timestamp;
      }
      caller := Waiting(data, timestamp);
    }

    /** writeEvent once m_free is not empty: keep the front buffer, or take it in hand. */
    method ChooseBuffer()
      requires Rings() && caller.Checking? && free.count > 0
      modifies this`caller, this`batchStart, free`head, free`count
      ensures Some(View()) == Step(old(View()), Choose)
      ensures var d, b := old(caller).data, old(Front(free.View()));
              if |d| > bufferSize - b.count || FW.Age(old(caller).time, old(batchStart)) > 2
              then caller == Rotating(d, b) && batchStart == old(caller).time && free.count == old(free.count) - 1
              else caller == Filling(d) && batchStart == old(batchStart) && free.count == old(free.count)
    {
      PopContents(free.View());
      var b := free.Front();
      if |caller.data| > bufferSize - b.count || FW.Age(caller.time, batchStart) > 2 {
        var empty, item := free.Pop(b);
        batchStart := caller.time;
        caller := Rotating(caller.data, item);
      } else {
        caller := Filling(caller.data);
      }
    }

    /** Queue the buffer in hand, in writeEvent or in flush. */
    method QueueBuffer()
      requires Rings() && (caller.Rotating? || caller.Flushing?)
      modifies this`caller, pend`tail, pend`count, pend.items
      ensures Some(View()) == Step(old(View()), Queue)
    {
      var full := pend.Push(caller.hand);
      caller := if caller.Rotating? then WaitingAgain(caller.data) else Draining;
    }

    /** memcpy into the front free buffer, or the exception. */
    method FillBuffer() returns (refusal: bool)
      requires Rings() && caller.Filling? && free.count > 0
      requires var b := Front(free.View());
               b.p < |memory| && |memory[b.p]| == bufferSize && b.count <= bufferSize
      modifies this`caller, this`memory, this`log, this`refused, free.items
      ensures Some(View()) == Step(old(View()), Fill)
      ensures refusal == (refused > old(refused))
    {
      PopContents(free.View());
      var b := free.Front();
      var data := caller.data;
      caller := Idle;
      refusal := |data| > bufferSize - b.count;
      if refusal {
        refused := refused + 1;
      } else {
        memory := memory[b.p := Copied(memory[b.p], b.count, data)];
        log := log + data;
        free.items[free.head] := Buffer(b.p, b.count + |data|);
      }
    }

    /** The start of flush. */
    method BeginDrain()
      requires Rings() && caller.Testing?
      modifies this`caller, this`batchStart, free`head, free`count
      ensures Some(View()) == Step(old(View()), TestFront)
    {
      PopContents(free.View());
      caller := Draining;
      if free.count > 0 {
        var b := free.Front();
        if b.count > 0 {
          var empty, item := free.Pop(b);
          batchStart := FW.TimeStamp(0, 0);
          caller := Flushing(item);
        }
      }
    }

    /** run: write all of m_pend.front(), which stays in the ring meanwhile. */
    method WriteFront()
      requires Rings() && pend.count > 0 && writer.Writing? && writer.written == 0
      requires Front(pend.View()).p < |memory| && Front(pend.View()).count <= |memory[Front(pend.View()).p]|
      modifies this`writer, this`file
      ensures Some(View()) == Step(old(View()), WriteSome(Front(old(pend.View())).count))
    {
      PopContents(pend.View());
      var b := pend.Front();
      ghost var bytes := memory[b.p][..b.count];
      assert bytes[0..b.count] == bytes;
      file := file + memory[b.p][..b.count];
      writer := Writing(b.count);
    }

    /** run: m_pend.pop(b), where b is the slot popped. */
    method PopFront()
      requires Rings() && pend.count > 0 && writer.Writing? && writer.written == Front(pend.View()).count
      modifies this`writer, pend`head, pend`count
      ensures Some(View()) == Step(old(View()), FinishWrite)
    {
      writer := Returning(pend.head);
      var empty, b := pend.Pop(Buffer(0, 0));
    }

    /** run: b.count = 0, in a slot outside the ring's contents. */
    method ClearSlot()
      requires Rings() && writer.Returning? && writer.slot < pend.items.Length
      modifies this`writer, pend.items
      ensures Some(View()) == Step(old(View()), Clear)
    {
      var k := writer.slot;
      pend.items[k] := Buffer(pend.items[k].p, 0);
      writer := Cleared(k);
    }

    /** run: m_free.push(b) */
    method ReturnBuffer()
      requires Rings() && writer.Cleared? && writer.slot < pend.items.Length
      modifies this`writer, free`tail, free`count, free.items
      ensures Some(View()) == Step(old(View()), Return)
    {
      var full := free.Push(pend.items[writer.slot]);
      writer := Polling;
    }
  }
}
