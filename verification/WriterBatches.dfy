/** When writeEvent of FileWriterMT starts a new batch: the front free buffer goes to the
    thread exactly when a datagram does not fit it or its batch is more than two seconds
    old by the 32-bit difference. */
module WriterBatches {
  import opened Runs
  import opened Fifo
  import FW = FileWriter
  import W = FileWriterMT

  type byte = W.byte

  /** One call of writeEvent from its first wait on. */
  predicate InCall(a: W.Action) {
    !a.BeginWrite? && !a.BeginFlush?
  }

  /** Buffers queued for the thread. */
  function Queues(acts: seq<W.Action>): nat {
    if acts == [] then 0 else Queues(acts[..|acts| - 1]) + if acts[|acts| - 1].Queue? then 1 else 0
  }

  predicate OfThread(a: W.Action) {
    a.SeePending? || a.WriteSome? || a.FinishWrite? || a.Clear? || a.Return?
  }

  /** The thread adds at most an empty free buffer, at the end. */
  ghost predicate ThreadMoved(s: W.State, t: W.State) {
    && Valid(s.free) && Valid(t.free)
    && t.caller == s.caller && t.batchStart == s.batchStart && t.memory == s.memory && t.bufferSize == s.bufferSize
    && (Contents(t.free) == Contents(s.free)
        || exists b: W.Buffer :: b.count == 0 && Contents(t.free) == Contents(s.free) + [b])
  }

  lemma ThreadFree(s: W.State, a: W.Action)
    requires W.Inv(s) && W.Step(s, a).Some? && OfThread(a)
    ensures ThreadMoved(s, W.Step(s, a).value)
  {
    if a.Return? {
      PushContents(s.free, s.pend.slots[s.writer.slot]);
    }
  }

  /** What the caller's step needs to know. */
  ghost predicate CallerMoved(s: W.State, a: W.Action, t: W.State) {
    && W.Sound(s) && W.Step(s, a) == Some(t) && Valid(s.free) && Valid(t.free) && Contents(s.free) != []
    && W.Front(s.free) == Contents(s.free)[0] && W.FreeAreEmpty(Contents(t.free), t.caller, t.bufferSize)
  }

  lemma CallerFree(s: W.State, a: W.Action)
    requires W.Inv(s) && W.Step(s, a).Some? && s.free.count > 0
    ensures CallerMoved(s, a, W.Step(s, a).value)
  {
    W.StepInv(s, a);
    W.FrontIs(s.free);
  }

  /** The call of a datagram that starts a new batch instead of joining b's, after q
      buffers were queued. */
  ghost predicate Renews(t: W.State, data: seq<byte>, time: W.TimeStamp, start: W.TimeStamp, b: W.Buffer, size: nat,
                         q: nat)
    requires Valid(t.free)
  {
    match t.caller
    case Checking(d, tm) =>
      && q == 0 && d == data && tm == time && t.batchStart == start && t.bufferSize == size
      && Contents(t.free) != [] && Contents(t.free)[0] == b
    case Rotating(d, _) => q == 0 && d == data && t.batchStart == time && W.Empty(Contents(t.free))
    case WaitingAgain(d) => q == 1 && d == data && t.batchStart == time && W.Empty(Contents(t.free))
    case Filling(d) => q == 1 && d == data && t.batchStart == time && W.Empty(Contents(t.free))
    case Idle => q == 1 && t.batchStart == time
    case _ => false
  }

  lemma RenewsThread(t: W.State, u: W.State, data: seq<byte>, time: W.TimeStamp, start: W.TimeStamp, b: W.Buffer,
                     size: nat,
                     q: nat)
    requires ThreadMoved(t, u) && Renews(t, data, time, start, b, size, q)
    ensures Renews(u, data, time, start, b, size, q)
  {
  }

  lemma RenewsCaller(t: W.State, a: W.Action, u: W.State, data: seq<byte>, time: W.TimeStamp, start: W.TimeStamp,
                     b: W.Buffer, size: nat, q: nat)
    requires W.Sound(t) && W.Step(t, a) == Some(u) && Valid(t.free) && Valid(u.free) && InCall(a) && !OfThread(a)
    requires Renews(t, data, time, start, b, size, q) && (FW.Age(time, start) > 2 || |data| > size - b.count)
    requires t.caller.Checking? ==> CallerMoved(t, a, u)
    requires W.FreeAreEmpty(Contents(u.free), u.caller, u.bufferSize)
    ensures Renews(u, data, time, start, b, size, q + if a.Queue? then 1 else 0)
  {
  }

  lemma RenewsStep(t: W.State, a: W.Action, data: seq<byte>, time: W.TimeStamp, start: W.TimeStamp, b: W.Buffer,
                   size: nat,
                   q: nat)
    requires W.Inv(t) && W.Step(t, a).Some? && InCall(a) && Renews(t, data, time, start, b, size, q)
    requires FW.Age(time, start) > 2 || |data| > size - b.count
    ensures W.Inv(W.Step(t, a).value)
    ensures Renews(W.Step(t, a).value, data, time, start, b, size, q + if a.Queue? then 1 else 0)
  {
    W.StepInv(t, a);
    if OfThread(a) {
      ThreadFree(t, a);
      RenewsThread(t, W.Step(t, a).value, data, time, start, b, size, q);
    } else {
      if t.caller.Checking? {
        CallerFree(t, a);
      }
      RenewsCaller(t, a, W.Step(t, a).value, data, time, start, b, size, q);
    }
  }

  lemma {:induction false} RenewsRun(s: W.State, more: seq<W.Action>, t: W.State, data: seq<byte>, time: W.TimeStamp,
                                     start: W.TimeStamp, b: W.Buffer, size: nat)
    requires W.Inv(s) && Renews(s, data, time, start, b, size, 0)
    requires Exec(W.Step, s, more) == Some(t) && forall i :: 0 <= i < |more| ==> InCall(more[i])
    requires FW.Age(time, start) > 2 || |data| > size - b.count
    ensures W.Inv(t) && Renews(t, data, time, start, b, size, Queues(more))
  {
    if more != [] {
      var n := |more| - 1;
      var u := Exec(W.Step, s, more[..n]).value;
      RenewsRun(s, more[..n], u, data, time, start, b, size);
      RenewsStep(u, more[n], data, time, start, b, size, Queues(more[..n]));
    }
  }

  /** The front free buffer holds b and those bytes, and the datagram is to go behind. */
  ghost predicate Keeps(t: W.State, data: seq<byte>, time: W.TimeStamp, start: W.TimeStamp, b: W.Buffer,
                        bytes: seq<byte>,
                        size: nat)
    requires Valid(t.free)
  {
    && t.batchStart == start && t.bufferSize == size && Contents(t.free) != []
    && var front := Contents(t.free)[0];
       match t.caller
       case Checking(d, tm) => d == data && tm == time && front == b && W.Bytes(t.memory, b) == bytes
       case Filling(d) => d == data && front == b && W.Bytes(t.memory, b) == bytes
       case Idle => front == W.Buffer(b.p, b.count + |data|) && W.Bytes(t.memory, front) == bytes + data
       case _ => false
  }

  lemma KeepsThread(t: W.State, u: W.State, data: seq<byte>, time: W.TimeStamp, start: W.TimeStamp, b: W.Buffer,
                    bytes: seq<byte>, size: nat)
    requires ThreadMoved(t, u) && Keeps(t, data, time, start, b, bytes, size)
    ensures Keeps(u, data, time, start, b, bytes, size)
  {
  }

  lemma KeepsFill(t: W.State, data: seq<byte>, time: W.TimeStamp, start: W.TimeStamp, b: W.Buffer, bytes: seq<byte>,
                  size: nat)
    requires W.Inv(t) && t.caller.Filling? && Keeps(t, data, time, start, b, bytes, size)
    requires |data| <= size - b.count && W.Step(t, W.Fill).Some?
    ensures Valid(W.Step(t, W.Fill).value.free) && Keeps(W.Step(t, W.Fill).value, data, time, start, b, bytes, size)
  {
    W.FrontInMemory(t);
    FrontChanged(t.free, W.Buffer(b.p, b.count + |data|));
    W.FillStep(t, b, data);
    W.CopiedBytes(t.memory[b.p], b.count, data);
  }

  lemma KeepsCaller(t: W.State, a: W.Action, u: W.State, data: seq<byte>, time: W.TimeStamp, start: W.TimeStamp,
                    b: W.Buffer, bytes: seq<byte>, size: nat)
    requires CallerMoved(t, a, u) && InCall(a) && !OfThread(a) && !a.Fill? &&
             Keeps(t, data, time, start, b, bytes, size)
    requires FW.Age(time, start) <= 2 && |data| <= size - b.count
    ensures Keeps(u, data, time, start, b, bytes, size) && !a.Queue?
  {
  }

  lemma KeepsStep(t: W.State, a: W.Action, data: seq<byte>, time: W.TimeStamp, start: W.TimeStamp, b: W.Buffer,
                  bytes: seq<byte>, size: nat)
    requires W.Inv(t) && W.Step(t, a).Some? && InCall(a) && Keeps(t, data, time, start, b, bytes, size)
    requires FW.Age(time, start) <= 2 && |data| <= size - b.count
    ensures W.Inv(W.Step(t, a).value) && !a.Queue? && Keeps(W.Step(t, a).value, data, time, start, b, bytes, size)
  {
    W.StepInv(t, a);
    if OfThread(a) {
      ThreadFree(t, a);
      KeepsThread(t, W.Step(t, a).value, data, time, start, b, bytes, size);
    } else if a.Fill? {
      KeepsFill(t, data, time, start, b, bytes, size);
    } else {
      CallerFree(t, a);
      KeepsCaller(t, a, W.Step(t, a).value, data, time, start, b, bytes, size);
    }
  }

  lemma {:induction false} KeepsRun(s: W.State, more: seq<W.Action>, t: W.State, data: seq<byte>, time: W.TimeStamp,
                                    start: W.TimeStamp, b: W.Buffer, bytes: seq<byte>, size: nat)
    requires W.Inv(s) && Keeps(s, data, time, start, b, bytes, size)
    requires Exec(W.Step, s, more) == Some(t) && forall i :: 0 <= i < |more| ==> InCall(more[i])
    requires FW.Age(time, start) <= 2 && |data| <= size - b.count
    ensures W.Inv(t) && Queues(more) == 0 && Keeps(t, data, time, start, b, bytes, size)
  {
    if more != [] {
      var n := |more| - 1;
      var u := Exec(W.Step, s, more[..n]).value;
      KeepsRun(s, more[..n], u, data, time, start, b, bytes, size);
      KeepsStep(u, more[n], data, time, start, b, bytes, size);
    }
  }

  /** For every run and every interleaving: a datagram that is not stale and fits the
      front free buffer queues nothing. Until it is copied that buffer stays as it is,
      and afterwards it holds the same bytes with the datagram behind. */
  lemma FittingStays(s0: W.State, acts: seq<W.Action>, s: W.State, more: seq<W.Action>, t: W.State)
    requires W.Reachable(s0, acts, s) && s.caller.Checking? && s.free.count > 0
    requires Exec(W.Step, s, more) == Some(t) && forall i :: 0 <= i < |more| ==> InCall(more[i])
    requires FW.Age(s.caller.time, s.batchStart) <= 2 && |s.caller.data| <= s.bufferSize - W.Front(s.free).count
    ensures Queues(more) == 0 && t.batchStart == s.batchStart && t.free.count > 0
    ensures var b, f := W.Front(s.free), W.Front(t.free);
            if t.caller.Idle? then
              f == W.Buffer(b.p, b.count + |s.caller.data|) &&
                W.Bytes(t.memory, f) == W.Bytes(s.memory, b) + s.caller.data
            else f == b && W.Bytes(t.memory, f) == W.Bytes(s.memory, b)
  {
    W.ReachableInv(s0, acts, s);
    W.FrontIs(s.free);
    var b := W.Front(s.free);
    KeepsRun(s, more, t, s.caller.data, s.caller.time, s.batchStart, b, W.Bytes(s.memory, b), s.bufferSize);
    W.FrontIs(t.free);
  }

  /** A stale datagram, or one that does not fit, has the front buffer queued before it is
      copied: then the free buffers are empty, the new batch starts at its time, and all
      that was written before is in the file or queued for the thread. */
  lemma StaleIsQueued(s0: W.State, acts: seq<W.Action>, s: W.State, more: seq<W.Action>, t: W.State)
    requires W.Reachable(s0, acts, s) && s.caller.Checking? && s.free.count > 0
    requires Exec(W.Step, s, more) == Some(t) && forall i :: 0 <= i < |more| ==> InCall(more[i])
    requires FW.Age(s.caller.time, s.batchStart) > 2 || |s.caller.data| > s.bufferSize - W.Front(s.free).count
    requires t.caller.Filling?
    ensures Queues(more) == 1 && t.batchStart == s.caller.time
    ensures Valid(t.free) && Valid(t.pend) && t.free.count > 0 && W.Front(t.free).count == 0
    ensures W.Done(t.writer) <= |W.All(t.memory, Contents(t.pend))|
    ensures t.file + W.All(t.memory, Contents(t.pend))[W.Done(t.writer)..] == t.log
  {
    W.ReachableInv(s0, acts, s);
    W.FrontIs(s.free);
    RenewsRun(s, more, t, s.caller.data, s.caller.time, s.batchStart, W.Front(s.free), s.bufferSize);
    W.FrontIs(t.free);
    AllQueued(t);
  }

  lemma AllQueued(t: W.State)
    requires W.Inv(t) && t.caller.Filling? && W.Empty(Contents(t.free))
    ensures var all := W.All(t.memory, Contents(t.pend));
            W.Done(t.writer) <= |all| && t.file + all[W.Done(t.writer)..] == t.log
  {
    var pend, free := Contents(t.pend), Contents(t.free);
    assert W.Complete(t.memory, pend + [] + free, W.Done(t.writer), t.file, t.log);
    PendingIsAll(t.memory, pend, free, W.Done(t.writer), t.file, t.log);
  }

  lemma PendingIsAll(memory: seq<seq<byte>>, pend: seq<W.Buffer>, free: seq<W.Buffer>, done: nat, file: seq<byte>,
                     log: seq<byte>)
    requires W.Complete(memory, pend + [] + free, done, file, log) && W.Empty(free)
    ensures W.Complete(memory, pend, done, file, log)
  {
    W.AllConcat(memory, pend, free);
    W.AllEmpty(memory, free);
    assert pend + [] + free == pend + free;
    assert W.All(memory, pend) + [] == W.All(memory, pend);
  }

  /** time is that of the call underway, and held are those of the datagrams in the front
      free buffer. */
  datatype Traced = Traced(s: W.State, time: W.TimeStamp, held: seq<W.TimeStamp>)

  /** Datagrams have times; 0 stands for no batch. */
  ghost function Step(x: Traced, a: W.Action): Option<Traced> {
    match W.Step(x.s, a)
    case None => None
    case Some(t) =>
      if a.BeginWrite? && a.time.Value() == 0 then None
      else
        Some(Traced(t, if a.BeginWrite? then a.time else x.time,
                    if (a.Choose? && t.caller.Rotating?) || (a.TestFront? && t.caller.Flushing?) then []
                    else if a.Fill? && t.refused == x.s.refused then x.held + [x.time]
                    else x.held))
  }

  predicate Young(held: seq<W.TimeStamp>, start: W.TimeStamp) {
    && (forall i :: 0 <= i < |held| ==> FW.Age(held[i], start) <= 2)
    && (held != [] ==> start.Value() > 0)
  }

  predicate Timed(c: W.Caller, start: W.TimeStamp, time: W.TimeStamp) {
    match c
    case Waiting(_, tm) => tm == time && time.Value() > 0 && start.Value() > 0
    case Checking(_, tm) => tm == time && time.Value() > 0 && start.Value() > 0
    case Rotating(_, _) => start == time && time.Value() > 0
    case WaitingAgain(_) => start == time && time.Value() > 0
    case Filling(_) => FW.Age(time, start) <= 2 && start.Value() > 0
    case _ => true
  }

  ghost predicate Batch(x: Traced)
    requires Valid(x.s.free)
  {
    && Young(x.held, x.s.batchStart) && Timed(x.s.caller, x.s.batchStart, x.time)
    && (x.held == [] ==> W.Empty(Contents(x.s.free)))
  }

  ghost predicate Inv(x: Traced) {
    W.Inv(x.s) && Batch(x)
  }

  lemma BatchCaller(x: Traced, a: W.Action, y: Traced)
    requires Valid(x.s.free) && Batch(x) && Step(x, a) == Some(y) && !OfThread(a) && !a.Fill?
    requires Valid(y.s.free) && W.FreeAreEmpty(Contents(y.s.free), y.s.caller, y.s.bufferSize)
    requires y.s.free == x.s.free || (a.Choose? && y.s.caller.Rotating?) || (a.TestFront? && y.s.caller.Flushing?)
    ensures Batch(y)
  {
  }

  lemma CallerKeepsFree(s: W.State, a: W.Action)
    requires W.Step(s, a).Some? && !OfThread(a) && !a.Fill?
    ensures var t := W.Step(s, a).value;
            t.free == s.free || (a.Choose? && t.caller.Rotating?) || (a.TestFront? && t.caller.Flushing?)
  {
  }

  lemma BatchFill(x: Traced)
    requires Inv(x) && Step(x, W.Fill).Some?
    ensures Valid(Step(x, W.Fill).value.s.free) && Batch(Step(x, W.Fill).value)
  {
    W.FillOutcome(x.s);
    W.FrontInMemory(x.s);
    var data, b := x.s.caller.data, Contents(x.s.free)[0];
    if |data| <= x.s.bufferSize - b.count {
      FrontChanged(x.s.free, W.Buffer(b.p, b.count + |data|));
      W.FillStep(x.s, b, data);
    }
  }

  lemma BatchStep(x: Traced, a: W.Action)
    requires Inv(x) && Step(x, a).Some?
    ensures Inv(Step(x, a).value)
  {
    W.StepInv(x.s, a);
    var y := Step(x, a).value;
    if OfThread(a) {
      ThreadFree(x.s, a);
      ThreadHolds(x, a);
    } else if a.Fill? {
      BatchFill(x);
    } else {
      CallerKeepsFree(x.s, a);
      BatchCaller(x, a, y);
    }
  }

  lemma ThreadHolds(x: Traced, a: W.Action)
    requires Valid(x.s.free) && Batch(x) && Step(x, a).Some? && OfThread(a) && ThreadMoved(x.s, W.Step(x.s, a).value)
    ensures Valid(Step(x, a).value.s.free) && Batch(Step(x, a).value)
  {
  }

  /** In every run: the front free buffer's datagrams are at most two seconds older or
      younger than the start of its batch, by the 32-bit difference of their seconds. */
  lemma FrontIsYoung(s0: W.State, time: W.TimeStamp, acts: seq<W.Action>, x: Traced)
    requires W.Initial(s0) && |s0.memory| > 0 && Exec(Step, Traced(s0, time, []), acts) == Some(x)
    ensures Valid(x.s.free)
    ensures forall i :: 0 <= i < |x.held| ==> FW.Age(x.held[i], x.s.batchStart) <= 2
    ensures x.s.free.count > 0 && W.Front(x.s.free).count > 0 ==> x.held != []
  {
    W.InitialInv(s0);
    forall y: Traced, a: W.Action {:trigger Step(y, a)} | Inv(y) && Step(y, a).Some? ensures Inv(Step(y, a).value) {
      BatchStep(y, a);
    }
    Invariant(Step, Inv, Traced(s0, time, []), acts);
    if x.s.free.count > 0 {
      W.FrontIs(x.s.free);
    }
  }
}
