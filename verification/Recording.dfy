/** The recording of EbReceiver through the threads of FileWriterMT: what is on disk. */
module Recording {
  import opened Runs
  import E = EbReceiver
  import W = FileWriterMT

  type byte = E.byte

  /** The datagrams that the calls of writeEvent were given. */
  function Writes(acts: seq<W.Action>): seq<seq<byte>> {
    if acts == [] then []
    else
      var last := acts[|acts| - 1];
      Writes(acts[..|acts| - 1]) + if last.BeginWrite? then [last.data] else []
  }

  predicate Fit(dgrams: seq<seq<byte>>, size: nat) {
    forall i :: 0 <= i < |dgrams| ==> |dgrams[i]| <= size
  }

  ghost predicate Logged(s: W.State, dgrams: seq<seq<byte>>) {
    s.log + W.Underway(s.caller) == E.Flat(dgrams) && |W.Underway(s.caller)| <= s.bufferSize
  }

  lemma {:induction false} WritesConcat(a: seq<W.Action>, b: seq<W.Action>)
    ensures Writes(a + b) == Writes(a) + Writes(b)
  {
    if b == [] {
      assert a + b == a;
    } else {
      WritesConcat(a, b[..|b| - 1]);
      assert (a + b)[..|a + b| - 1] == a + b[..|b| - 1];
    }
  }

  lemma {:induction false} FlatConcat(a: seq<seq<byte>>, b: seq<seq<byte>>)
    ensures E.Flat(a + b) == E.Flat(a) + E.Flat(b)
  {
    if b == [] {
      assert a + b == a;
    } else {
      FlatConcat(a, b[..|b| - 1]);
      assert (a + b)[..|a + b| - 1] == a + b[..|b| - 1];
    }
  }

  /** What write(2) takes in a step. */
  ghost function Taken(w: W.State, a: W.Action): seq<byte>
    requires W.Sound(w)
  {
    if a.WriteSome? && w.writer.Writing? && w.writer.written + a.n <= |W.Bytes(w.memory, W.Front(w.pend))| then
      W.Bytes(w.memory, W.Front(w.pend))[w.writer.written..w.writer.written + a.n]
    else []
  }

  predicate InFlush(c: W.Caller) {
    c.Testing? || c.Flushing? || c.Draining?
  }

  /** What a step of the writer means to its caller. */
  ghost predicate Moves(w: W.State, a: W.Action, t: W.State)
    requires W.Sound(w)
  {
    && t.bufferSize == w.bufferSize && |W.Underway(t.caller)| <= w.bufferSize
    && t.file == w.file + Taken(w, a)
    && t.log + W.Underway(t.caller) == w.log + W.Underway(w.caller) + (if a.BeginWrite? then a.data else [])
    && (a.BeginWrite? ==> w.caller.Idle?)
    && (InFlush(t.caller) <==> a.BeginFlush? || (InFlush(w.caller) && !a.Drain?))
    && (w.caller.Idle? && !a.BeginWrite? && !a.BeginFlush? ==> t.caller.Idle?)
  }

  lemma WriteMoves(w: W.State, a: W.Action)
    requires W.Sound(w) && W.WriteStep(w, a).Some? && |W.Underway(w.caller)| <= w.bufferSize
    requires a.BeginWrite? ==> |a.data| <= w.bufferSize
    requires !a.Fill? && !a.BeginFlush? && !a.Drain?
    ensures Moves(w, a, W.WriteStep(w, a).value)
  {
  }

  lemma FillMoves(w: W.State)
    requires W.Inv(w) && W.Step(w, W.Fill).Some? && |W.Underway(w.caller)| <= w.bufferSize
    ensures W.Sound(w) && Moves(w, W.Fill, W.Step(w, W.Fill).value)
  {
    W.FillOutcome(w);
  }

  lemma FlushMoves(w: W.State, a: W.Action)
    requires W.Sound(w) && W.FlushStep(w, a).Some? && |W.Underway(w.caller)| <= w.bufferSize
    ensures Moves(w, a, W.FlushStep(w, a).value)
  {
  }

  lemma ThreadMoves(w: W.State, a: W.Action)
    requires W.Sound(w) && W.ThreadStep(w, a).Some? && |W.Underway(w.caller)| <= w.bufferSize
    ensures Moves(w, a, W.ThreadStep(w, a).value)
  {
  }

  lemma WriterStep(w: W.State, a: W.Action)
    requires W.Inv(w) && W.Step(w, a).Some? && |W.Underway(w.caller)| <= w.bufferSize
    requires a.BeginWrite? ==> |a.data| <= w.bufferSize
    ensures W.Sound(w) && Moves(w, a, W.Step(w, a).value)
  {
    if a.BeginFlush? || a.TestFront? || a.Drain? {
      FlushMoves(w, a);
      assert W.Step(w, a) == W.FlushStep(w, a);
    } else if a.SeePending? || a.WriteSome? || a.FinishWrite? || a.Clear? || a.Return? {
      ThreadMoves(w, a);
      assert W.Step(w, a) == W.ThreadStep(w, a);
    } else if a.Fill? {
      FillMoves(w);
    } else {
      WriteMoves(w, a);
      assert W.Step(w, a) == W.WriteStep(w, a);
    }
  }

  lemma StepLogs(s: W.State, a: W.Action, dgrams: seq<seq<byte>>)
    requires W.Inv(s) && Logged(s, dgrams) && W.Step(s, a).Some? && (a.BeginWrite? ==> |a.data| <= s.bufferSize)
    ensures W.Step(s, a).value.bufferSize == s.bufferSize
    ensures Logged(W.Step(s, a).value, if a.BeginWrite? then dgrams + [a.data] else dgrams)
  {
    WriterStep(s, a);
    if a.BeginWrite? {
      E.FlatAppend(dgrams, a.data);
    } else {
      assert E.Flat(dgrams) + [] == E.Flat(dgrams);
    }
  }

  /** In every run of the writer the log is what writeEvent was given. */
  lemma {:induction false} LogIsWrites(s0: W.State, acts: seq<W.Action>, s: W.State)
    requires W.Reachable(s0, acts, s) && Fit(Writes(acts), s0.bufferSize)
    ensures s.bufferSize == s0.bufferSize && Logged(s, Writes(acts))
  {
    if acts != [] {
      var n := |acts| - 1;
      var t := Exec(W.Step, s0, acts[..n]).value;
      assert Fit(Writes(acts[..n]), s0.bufferSize) by {
        forall i | 0 <= i < |Writes(acts[..n])| ensures |Writes(acts[..n])[i]| <= s0.bufferSize {
          assert Writes(acts[..n])[i] == Writes(acts)[i];
        }
      }
      LogIsWrites(s0, acts[..n], t);
      W.ReachableInv(s0, acts[..n], t);
      assert acts[n].BeginWrite? ==> Writes(acts)[|Writes(acts)| - 1] == acts[n].data;
      StepLogs(t, acts[n], Writes(acts[..n]));
      assert Writes(acts[..n]) + [] == Writes(acts[..n]);
    } else {
      assert [] + E.Flat([]) == [];
    }
  }

  /** Between calls, with nothing buffered. */
  ghost predicate Settled(s: W.State) {
    s.caller.Idle? && s.file == s.log
  }

  /** Before the first write, or when flush has just returned. */
  ghost predicate Flushed(s0: W.State, acts: seq<W.Action>, s: W.State) {
    W.Reachable(s0, acts, s) && (acts == [] || acts[|acts| - 1].Drain?)
  }

  lemma FlushSettles(s0: W.State, acts: seq<W.Action>, s: W.State)
    requires Flushed(s0, acts, s)
    ensures Settled(s)
  {
    if acts != [] {
      var n := |acts| - 1;
      W.FlushReturns(s0, acts[..n], Exec(W.Step, s0, acts[..n]).value, s);
    }
  }

  /** What the thread writes between two flushes is what writeEvent was given between them. */
  lemma BetweenFlushes(s0: W.State, a: seq<W.Action>, s: W.State, b: seq<W.Action>, t: W.State)
    requires Flushed(s0, a, s) && Flushed(s0, a + b, t)
    requires Fit(Writes(a + b), s0.bufferSize)
    ensures t.file == s.file + E.Flat(Writes(b))
  {
    FlushSettles(s0, a, s);
    FlushSettles(s0, a + b, t);
    WritesConcat(a, b);
    FlatConcat(Writes(a), Writes(b));
    assert Fit(Writes(a), s0.bufferSize) by {
      forall i | 0 <= i < |Writes(a)| ensures |Writes(a)[i]| <= s0.bufferSize {
        assert Writes(a)[i] == Writes(a + b)[i];
      }
    }
    LogIsWrites(s0, a, s);
    LogIsWrites(s0, a + b, t);
    assert s.log + [] == s.log && t.log + [] == t.log;
  }

  /** What process has yet to do when the datagrams are written. */
  datatype After = Nothing | Close(next: Option<nat>) | OpenNext(chunk: nat)

  /** The receiver, the writer that it calls, and the files. process stands before the
      first of todo; fd is the file open, and base is how much the thread had written
      when it was opened. */
  datatype State = State(e: E.State, w: W.State, todo: seq<seq<byte>>, after: After,
                         fd: Option<nat>, base: nat, disk: map<nat, seq<byte>>)

  datatype Action = Receive(r: E.Action) | Thread(t: W.Action) | OpenFile

  /** The calls of _writeDgram for a datagram. */
  function Dgrams(e: E.State, a: E.Action): seq<seq<byte>> {
    if !e.writing then []
    else
      match a
      case BeginRun(dgram) => [e.config, dgram]
      case L1Accept(dgram, keep) => if keep then [dgram] else []
      case StartRun(_) => []
      case PrepareEnable => []
      case _ => [a.dgram]
  }

  /** And what follows them. */
  function Follows(e: E.State, a: E.Action): After {
    match a
    case StartRun(recording) => if recording then OpenNext(0) else Nothing
    case Enable(_) => if e.writing && e.request then Close(Some(e.chunkId)) else Nothing
    case EndRun(_) => if e.writing then Close(None) else Nothing
    case _ => Nothing
  }

  /** The caller's steps that its program has come to. */
  ghost predicate IsNext(s: State, a: W.Action) {
    && (a.BeginWrite? ==> s.todo != [] && a.data == s.todo[0])
    && (a.BeginFlush? ==> s.todo == [] && s.after.Close?)
  }

  ghost function Step(s: State, a: Action): Option<State> {
    match a
    case Receive(r) =>
      if s.todo != [] || s.after != Nothing || !s.w.caller.Idle? || E.Step(s.e, r).None? then None
      else if !Fit(Dgrams(s.e, r), s.w.bufferSize) then None
      else Some(s.(e := E.Step(s.e, r).value, todo := Dgrams(s.e, r), after := Follows(s.e, r),
                   disk := if r.StartRun? && r.recording then map[] else s.disk))
    case OpenFile =>
      if !s.after.OpenNext? then None
      else Some(s.(after := Nothing, fd := Some(s.after.chunk), base := |s.w.file|,
        disk := s.disk[s.after.chunk := []]))
    case Thread(t) =>
      if !IsNext(s, t) || W.Step(s.w, t).None? then None
      else
        var u := Written(s.(w := W.Step(s.w, t).value), Taken(s.w, t));
        Some(if t.BeginWrite? then u.(todo := s.todo[1..])
             else if t.Drain? && s.after.Close? then
               u.(fd := None, after := if s.after.next.Some? then OpenNext(s.after.next.value) else Nothing)
             else u)
  }

  /** Bytes go to the file that is open. */
  function Written(s: State, bytes: seq<byte>): State {
    if s.fd.Some? && s.fd.value in s.disk then s.(disk := s.disk[s.fd.value := s.disk[s.fd.value] + bytes]) else s
  }

  /** The program counter fits the receiver's state. */
  ghost predicate Placed(e: E.State, c: W.Caller, todo: seq<seq<byte>>, after: After, fd: Option<nat>) {
    && (InFlush(c) ==> todo == [] && after.Close?)
    && (todo != [] ==> fd.Some?)
    && match after
       case Nothing => fd == if e.writing then Some(e.open) else None
       case Close(None) => !e.writing && fd == Some(e.open)
       case Close(Some(c)) => e.writing && c == e.open && c > 0 && fd == Some(c - 1) && c in e.files && e.files[c] == []
       case OpenNext(c) => e.writing && c == e.open && fd == None && c in e.files && e.files[c] == []
  }

  /** The open file has what the thread wrote since it was opened; that, what the writer
      still has and what process will give it make the chunk. */
  ghost predicate OpenOk(files: map<nat, seq<byte>>, w: W.State, todo: seq<seq<byte>>, fd: Option<nat>, base: nat,
                         disk: map<nat, seq<byte>>) {
    match fd
    case None => Settled(w)
    case Some(c) =>
      && c in files && c in disk && base <= |w.file| && base <= |w.log|
      && disk[c] == w.file[base..]
      && files[c] == (w.log + W.Underway(w.caller))[base..] + E.Flat(todo)
  }

  /** Every other file on disk is its chunk, and every chunk is on disk or about to be. */
  ghost predicate ClosedOk(files: map<nat, seq<byte>>, after: After, fd: Option<nat>, disk: map<nat, seq<byte>>) {
    && (forall c :: c in disk ==> c in files && (fd == Some(c) || disk[c] == files[c]))
    && (forall c :: c in files ==> c in disk || after == OpenNext(c) || after == Close(Some(c)))
  }

  ghost predicate Inv(s: State) {
    && E.Inv(s.e) && W.Inv(s.w) && Fit(s.todo, s.w.bufferSize) && |W.Underway(s.w.caller)| <= s.w.bufferSize
    && Placed(s.e, s.w.caller, s.todo, s.after, s.fd)
    && OpenOk(s.e.files, s.w, s.todo, s.fd, s.base, s.disk)
    && ClosedOk(s.e.files, s.after, s.fd, s.disk)
  }

  lemma {:induction false} FlatFirst(parts: seq<seq<byte>>)
    requires parts != []
    ensures E.Flat(parts) == parts[0] + E.Flat(parts[1..])
  {
    FlatConcat([parts[0]], parts[1..]);
    assert parts == [parts[0]] + parts[1..];
    assert E.Flat([parts[0]]) == E.Flat([]) + parts[0];
  }

  lemma FilePrefix(w: W.State)
    requires W.Inv(w)
    ensures w.file <= w.log
  {
  }

  /** The open file after a step that is not the end of a flush. */
  lemma OpenStays(files: map<nat, seq<byte>>, w: W.State, w': W.State, todo: seq<seq<byte>>, todo': seq<seq<byte>>,
                  c: nat, base: nat, disk: map<nat, seq<byte>>, bytes: seq<byte>, data: seq<byte>)
    requires OpenOk(files, w, todo, Some(c), base, disk) && w'.file <= w'.log
    requires w'.file == w.file + bytes && w'.log + W.Underway(w'.caller) == w.log + W.Underway(w.caller) + data
    requires E.Flat(todo) == data + E.Flat(todo')
    ensures OpenOk(files, w', todo', Some(c), base, disk[c := disk[c] + bytes])
  {
    assert w'.file[base..] == w.file[base..] + bytes;
    var all := w.log + W.Underway(w.caller);
    assert (all + data)[base..] == all[base..] + data;
    assert (all[base..] + data) + E.Flat(todo') == all[base..] + (data + E.Flat(todo'));
  }

  lemma SettledStays(w: W.State, a: W.Action)
    requires W.Inv(w) && Settled(w) && W.Step(w, a).Some? && !a.BeginWrite? && !a.BeginFlush?
    ensures Settled(W.Step(w, a).value) && Taken(w, a) == []
  {
    WriterStep(w, a);
    W.StepInv(w, a);
    FilePrefix(W.Step(w, a).value);
  }

  lemma OpenMoves(files: map<nat, seq<byte>>, w: W.State, a: W.Action, w': W.State, todo: seq<seq<byte>>, c: nat,
                  base: nat,
                  disk: map<nat, seq<byte>>)
    requires W.Sound(w) && Moves(w, a, w') && w'.file <= w'.log && OpenOk(files, w, todo, Some(c), base, disk)
    requires a.BeginWrite? ==> todo != [] && a.data == todo[0]
    ensures OpenOk(files, w', if a.BeginWrite? then todo[1..] else todo, Some(c), base,
                   disk[c := disk[c] + Taken(w, a)])
  {
    if a.BeginWrite? {
      FlatFirst(todo);
      OpenStays(files, w, w', todo, todo[1..], c, base, disk, Taken(w, a), a.data);
    } else {
      assert [] + E.Flat(todo) == E.Flat(todo);
      OpenStays(files, w, w', todo, todo, c, base, disk, Taken(w, a), []);
    }
  }

  lemma WriterFacts(w: W.State, a: W.Action) returns (w': W.State)
    requires W.Inv(w) && W.Step(w, a).Some? && |W.Underway(w.caller)| <= w.bufferSize
    requires a.BeginWrite? ==> |a.data| <= w.bufferSize
    ensures W.Sound(w) && W.Step(w, a) == Some(w') && Moves(w, a, w') && w'.file <= w'.log
  {
    w' := W.Step(w, a).value;
    WriterStep(w, a);
    W.StepInv(w, a);
    FilePrefix(w');
  }

  lemma ThreadOpenSome(s: State, a: W.Action, c: nat, w': W.State)
    requires W.Sound(s.w) && W.Step(s.w, a) == Some(w') && Moves(s.w, a, w') && w'.file <= w'.log
    requires IsNext(s, a) && !a.Drain? && s.fd == Some(c)
    requires OpenOk(s.e.files, s.w, s.todo, Some(c), s.base, s.disk)
    ensures var t := Step(s, Thread(a)).value; OpenOk(t.e.files, t.w, t.todo, t.fd, t.base, t.disk)
  {
    OpenMoves(s.e.files, s.w, a, w', s.todo, c, s.base, s.disk);
  }

  lemma ThreadOpenNone(s: State, a: W.Action, w': W.State)
    requires W.Sound(s.w) && W.Step(s.w, a) == Some(w') && Settled(w') && IsNext(s, a) && !a.Drain? && s.fd == None
    ensures var t := Step(s, Thread(a)).value; OpenOk(t.e.files, t.w, t.todo, t.fd, t.base, t.disk)
  {
  }

  lemma SettledNext(s: State, a: W.Action)
    requires Inv(s) && IsNext(s, a) && W.Step(s.w, a).Some? && s.fd == None
    ensures W.Sound(s.w) && Settled(W.Step(s.w, a).value)
  {
    SettledStays(s.w, a);
  }

  lemma ThreadOpen(s: State, a: W.Action)
    requires Inv(s) && IsNext(s, a) && W.Step(s.w, a).Some? && !a.Drain?
    ensures var t := Step(s, Thread(a)).value; OpenOk(t.e.files, t.w, t.todo, t.fd, t.base, t.disk)
  {
    match s.fd
    case None =>
      SettledNext(s, a);
      ThreadOpenNone(s, a, W.Step(s.w, a).value);
    case Some(c) =>
      var w' := WriterFacts(s.w, a);
      ThreadOpenSome(s, a, c, w');
  }

  /** The end of a flush: the file has the whole chunk. */
  lemma DrainCompletes(s: State, c: nat)
    requires OpenOk(s.e.files, s.w, [], Some(c), s.base, s.disk) && s.w.file == s.w.log && W.Underway(s.w.caller) == []
    ensures c in s.disk && c in s.e.files && s.disk[c] == s.e.files[c]
  {
    assert s.w.log + [] == s.w.log;
    assert s.w.log[s.base..] + E.Flat([]) == s.w.log[s.base..];
  }

  lemma DrainStep(s: State, c: nat, next: Option<nat>)
    requires W.Step(s.w, W.Drain).Some? && s.after == Close(next) && s.fd == Some(c) && c in s.disk
    ensures var w := W.Step(s.w, W.Drain).value;
            && Step(s, Thread(W.Drain))
               == Some(s.(w := w, fd := None, after := if next.Some? then OpenNext(next.value) else Nothing))
            && w.bufferSize == s.w.bufferSize && w.caller == W.Idle && w.file == s.w.file && w.log == s.w.log
  {
    assert s.disk[c] + [] == s.disk[c];
    assert s.disk[c := s.disk[c]] == s.disk;
  }

  lemma DrainParts(s: State) returns (c: nat, next: Option<nat>)
    requires Inv(s) && W.Step(s.w, W.Drain).Some?
    ensures s.fd == Some(c) && s.after == Close(next) && s.todo == [] && s.w.file == s.w.log
    ensures c in s.disk && c in s.e.files && s.disk[c] == s.e.files[c]
  {
    c, next := s.fd.value, s.after.next;
    W.DrainedIsComplete(s.w);
    DrainCompletes(s, c);
  }

  lemma ClosedWith(files: map<nat, seq<byte>>, c: nat, next: Option<nat>, disk: map<nat, seq<byte>>)
    requires ClosedOk(files, Close(next), Some(c), disk) && c in disk && c in files && disk[c] == files[c]
    ensures ClosedOk(files, if next.Some? then OpenNext(next.value) else Nothing, None, disk)
  {
  }

  lemma DrainInv(s: State)
    requires Inv(s) && W.Step(s.w, W.Drain).Some?
    ensures Inv(Step(s, Thread(W.Drain)).value)
  {
    var c, next := DrainParts(s);
    W.StepInv(s.w, W.Drain);
    DrainStep(s, c, next);
    ClosedWith(s.e.files, c, next, s.disk);
  }

  lemma ThreadPlaced(s: State, a: W.Action)
    requires Inv(s) && Step(s, Thread(a)).Some? && !a.Drain?
    ensures var t := Step(s, Thread(a)).value;
            && t.e == s.e && t.w == W.Step(s.w, a).value && t.after == s.after && t.fd == s.fd
            && Fit(t.todo, s.w.bufferSize) && Placed(t.e, t.w.caller, t.todo, t.after, t.fd)
  {
    WriterStep(s.w, a);
  }

  lemma ThreadClosed(s: State, a: W.Action)
    requires Inv(s) && Step(s, Thread(a)).Some? && !a.Drain?
    ensures var t := Step(s, Thread(a)).value;
            t.e.files == s.e.files && ClosedOk(t.e.files, s.after, s.fd, t.disk)
  {
    ThreadDisk(s, a);
  }

  lemma ThreadDisk(s: State, a: W.Action)
    requires Step(s, Thread(a)).Some? && !a.Drain?
    ensures var t := Step(s, Thread(a)).value;
            && t.e == s.e && t.disk.Keys == s.disk.Keys
            && forall c :: c in s.disk && s.fd != Some(c) ==> t.disk[c] == s.disk[c]
  {
  }

  lemma ThreadInv(s: State, a: W.Action)
    requires Inv(s) && Step(s, Thread(a)).Some?
    ensures Inv(Step(s, Thread(a)).value)
  {
    if a.Drain? {
      DrainInv(s);
    } else {
      W.StepInv(s.w, a);
      WriterStep(s.w, a);
      ThreadOpen(s, a);
      ThreadPlaced(s, a);
      ThreadClosed(s, a);
    }
  }

  lemma OpenFileInv(s: State)
    requires Inv(s) && s.after.OpenNext?
    ensures Inv(Step(s, OpenFile).value)
  {
    assert s.w.log + [] == s.w.log;
  }

  /** What a datagram does to the chunks, by the calls it makes. */
  ghost predicate Does(e: E.State, dgrams: seq<seq<byte>>, after: After, t: E.State) {
    && (!e.writing ==> t.files == e.files && !t.writing && dgrams == [] && after == Nothing)
    && (e.writing ==>
          && e.open in e.files
          && var files := e.files[e.open := e.files[e.open] + E.Flat(dgrams)];
             match after
             case Nothing => t.writing && t.open == e.open && t.files == files
             case Close(None) => !t.writing && t.open == e.open && t.files == files
             case Close(Some(c)) => t.writing && t.open == c == e.open + 1 && c !in e.files && t.files == files[c := []]
             case OpenNext(_) => false)
  }

  lemma FlatOfFew(c: seq<byte>, d: seq<byte>)
    ensures E.Flat([]) == [] && E.Flat([d]) == d && E.Flat([c, d]) == c + d
  {
    assert [d][..0] == [] && [] + d == d;
    assert [c, d][..1] == [c] && [c][..0] == [] && [] + c == c;
  }

  lemma Appends(e: E.State, d: seq<byte>)
    requires E.Inv(e) && e.writing
    ensures e.open in e.files && E.Appended(e, d).files == e.files[e.open := e.files[e.open] + E.Flat([d])]
  {
    FlatOfFew(d, d);
  }

  lemma BeginRunDoes(e: E.State, d: seq<byte>)
    requires E.Inv(e) && e.control.Starting?
    ensures Does(e, Dgrams(e, E.BeginRun(d)), Nothing, E.Step(e, E.BeginRun(d)).value)
  {
    FlatOfFew(e.config, d);
    if e.writing {
      assert (e.files[e.open] + e.config) + d == e.files[e.open] + (e.config + d);
    }
  }

  lemma EnableDoes(e: E.State, d: seq<byte>)
    requires E.Inv(e) && e.control.Enabling?
    ensures Does(e, Dgrams(e, E.Enable(d)), Follows(e, E.Enable(d)), E.Step(e, E.Enable(d)).value)
  {
    if e.writing {
      Appends(e, d);
    }
  }

  lemma NoDatagram(e: E.State)
    ensures E.Flat([]) == [] && (e.open in e.files ==> e.files[e.open := e.files[e.open] + E.Flat([])] == e.files)
  {
    if e.open in e.files {
      assert e.files[e.open] + [] == e.files[e.open];
    }
  }

  lemma Effect(e: E.State, a: E.Action)
    requires E.Inv(e) && E.Step(e, a).Some? && !a.StartRun?
    ensures Does(e, Dgrams(e, a), Follows(e, a), E.Step(e, a).value)
  {
    NoDatagram(e);
    match a
    case BeginRun(d) => BeginRunDoes(e, d);
    case Enable(d) => EnableDoes(e, d);
    case L1Accept(d, _) => AppendDoes(e, a, d);
    case SlowUpdate(d) => AppendDoes(e, a, d);
    case Disable(d) => AppendDoes(e, a, d);
    case StepTransition(d) => AppendDoes(e, a, d);
    case EndRun(d) => AppendDoes(e, a, d);
    case _ =>
  }

  lemma AppendDoes(e: E.State, a: E.Action, d: seq<byte>)
    requires E.Inv(e) && E.Step(e, a).Some? &&
             (a.L1Accept? || a.SlowUpdate? || a.Disable? || a.StepTransition? || a.EndRun?)
    requires a.dgram == d
    ensures Does(e, Dgrams(e, a), Follows(e, a), E.Step(e, a).value)
  {
    NoDatagram(e);
    if e.writing {
      Appends(e, d);
    }
  }

  lemma ReceivePlaced(s: State, r: E.Action)
    requires Inv(s) && Step(s, Receive(r)).Some? && !r.StartRun?
    ensures var t := Step(s, Receive(r)).value; Placed(t.e, t.w.caller, t.todo, t.after, t.fd)
  {
    Effect(s.e, r);
  }

  lemma ReceiveOpen(s: State, r: E.Action)
    requires Inv(s) && Step(s, Receive(r)).Some? && !r.StartRun?
    ensures var t := Step(s, Receive(r)).value; OpenOk(t.e.files, t.w, t.todo, t.fd, t.base, t.disk)
  {
    Effect(s.e, r);
    NoDatagram(s.e);
    if s.e.writing {
      var since := (s.w.log + W.Underway(s.w.caller))[s.base..];
      assert since + E.Flat([]) == since;
    }
  }

  lemma ReceiveClosed(s: State, r: E.Action)
    requires Inv(s) && Step(s, Receive(r)).Some? && !r.StartRun?
    ensures var t := Step(s, Receive(r)).value; ClosedOk(t.e.files, t.after, t.fd, t.disk)
  {
    Effect(s.e, r);
  }

  lemma ReceiveInv(s: State, r: E.Action)
    requires Inv(s) && Step(s, Receive(r)).Some? && !r.StartRun?
    ensures Inv(Step(s, Receive(r)).value)
  {
    E.StepInv(s.e, r);
    ReceivePlaced(s, r);
    ReceiveOpen(s, r);
    ReceiveClosed(s, r);
  }

  lemma StartRunInv(s: State, recording: bool)
    requires Inv(s) && Step(s, Receive(E.StartRun(recording))).Some?
    ensures Inv(Step(s, Receive(E.StartRun(recording))).value)
  {
    E.StepInv(s.e, E.StartRun(recording));
  }

  lemma StepInv(s: State, a: Action)
    requires Inv(s) && Step(s, a).Some?
    ensures Inv(Step(s, a).value)
  {
    match a
    case Receive(StartRun(recording)) => StartRunInv(s, recording);
    case Receive(r) => ReceiveInv(s, r);
    case Thread(t) => ThreadInv(s, t);
    case OpenFile => OpenFileInv(s);
  }

  ghost predicate Initial(s: State) {
    && s.e.control.Halted? && !s.e.writing && s.e.files == map[]
    && W.Initial(s.w) && |s.w.memory| > 0
    && s.todo == [] && s.after == Nothing && s.fd == None && s.disk == map[]
  }

  ghost predicate Reachable(s0: State, acts: seq<Action>, s: State) {
    Initial(s0) && Exec(Step, s0, acts) == Some(s)
  }

  lemma ReachableInv(s0: State, acts: seq<Action>, s: State)
    requires Reachable(s0, acts, s)
    ensures Inv(s)
  {
    W.InitialInv(s0.w);
    forall t: State, a: Action {:trigger Step(t, a)} | Inv(t) && Step(t, a).Some? ensures Inv(Step(t, a).value) {
      StepInv(t, a);
    }
    Runs.Invariant(Step, Inv, s0, acts);
  }

  predicate IsClosed(s: State, c: nat) {
    c in s.disk && s.fd != Some(c)
  }

  /** In every run of the receiver and the writer's threads, across any number of
      rollovers: a closed file is its chunk, the open one a prefix of its own; each record
      of the index whose chunk is closed gives the place of its datagram on disk; and
      when process has returned every chunk has its file. */
  lemma ChunkIsOnDisk(s0: State, acts: seq<Action>, s: State)
    requires Reachable(s0, acts, s)
    ensures forall c :: c in s.disk ==>
              c in s.e.files && s.disk[c] <= s.e.files[c] && (IsClosed(s, c) ==> s.disk[c] == s.e.files[c])
    ensures s.e.files != map[] ==> |s.e.index| == |s.e.written|
    ensures forall i | 0 <= i < |s.e.index| && s.e.files != map[] && IsClosed(s, s.e.index[i].chunk) ::
              E.Locates(s.disk, s.e.index[i], s.e.written[i])
    ensures s.todo == [] && s.after == Nothing ==> s.disk.Keys == s.e.files.Keys
  {
    ReachableInv(s0, acts, s);
    if s.fd.Some? {
      OpenIsPrefix(s, s.fd.value);
    }
    forall i | 0 <= i < |s.e.index| && s.e.files != map[] && IsClosed(s, s.e.index[i].chunk)
      ensures E.Locates(s.disk, s.e.index[i], s.e.written[i])
    {
      assert E.Indexed(s.e.files, s.e.index, s.e.written);
      assert E.Locates(s.e.files, s.e.index[i], s.e.written[i]);
    }
  }

  lemma OpenIsPrefix(s: State, c: nat)
    requires Inv(s) && s.fd == Some(c)
    ensures c in s.disk && c in s.e.files && s.disk[c] <= s.e.files[c]
  {
    FilePrefix(s.w);
    var all := s.w.log + W.Underway(s.w.caller);
    assert s.w.file <= all;
    assert s.w.file[s.base..] <= all[s.base..];
  }

  function Received(acts: seq<Action>): seq<E.Action> {
    if acts == [] then []
    else
      var last := acts[|acts| - 1];
      Received(acts[..|acts| - 1]) + if last.Receive? then [last.r] else []
  }

  /** The receiver of such a run makes a run of its own. */
  lemma {:induction false} ReceiverRuns(s0: State, acts: seq<Action>, s: State)
    requires Reachable(s0, acts, s)
    ensures E.Reachable(s0.e, Received(acts), s.e)
  {
    if acts != [] {
      var n := |acts| - 1;
      var t := Exec(Step, s0, acts[..n]).value;
      ReceiverRuns(s0, acts[..n], t);
      var before := Received(acts[..n]);
      if acts[n].Receive? {
        assert (before + [acts[n].r])[..|before|] == before;
      } else {
        assert before + [] == before;
      }
    }
  }

  /** After a run is recorded the files on disk, one after another, are the datagrams
      that should be recorded, in order. */
  lemma RunIsOnDisk(s0: State, acts: seq<Action>, s: State)
    requires Reachable(s0, acts, s) && s.e.files != map[] && s.todo == [] && s.after == Nothing && s.fd == None
    ensures s.disk == s.e.files && E.Numbered(s.disk, s.e.open)
    ensures E.Chunks(s.disk, s.e.open + 1)
         == E.Flat(E.Expected(E.Script(false, s0.e.config, s0.e.written), Received(acts)).dgrams)
    ensures forall i :: 0 <= i < |s.e.index| ==> i < |s.e.written| && E.Locates(s.disk, s.e.index[i], s.e.written[i])
  {
    ReachableInv(s0, acts, s);
    ChunkIsOnDisk(s0, acts, s);
    ReceiverRuns(s0, acts, s);
    E.RunIsRecorded(s0.e, Received(acts), s.e);
    assert s.disk == s.e.files;
  }

  /** What can come next while process has not returned. */
  ghost function Next(s: State): Action {
    if s.after.OpenNext? && s.todo == [] then OpenFile
    else if !s.w.caller.Idle? then Thread(W.Next(s.w))
    else if s.todo != [] then Thread(W.BeginWrite(s.todo[0], s.w.batchStart))
    else Thread(W.BeginFlush)
  }

  lemma WriterGoesOn(s: State)
    requires Inv(s) && !s.w.caller.Idle?
    ensures Step(s, Thread(W.Next(s.w))).Some?
  {
    W.CanStep(s.w);
  }

  /** No deadlock: until process has returned something can go on. */
  lemma SomethingCanStep(s0: State, acts: seq<Action>, s: State)
    requires Reachable(s0, acts, s) && (s.todo != [] || s.after != Nothing || !s.w.caller.Idle?)
    ensures Step(s, Next(s)).Some?
  {
    ReachableInv(s0, acts, s);
    if !s.w.caller.Idle? {
      WriterGoesOn(s);
    } else {
      ProcessGoesOn(s);
    }
  }

  lemma ProcessGoesOn(s: State)
    requires Placed(s.e, s.w.caller, s.todo, s.after, s.fd) && W.Sound(s.w) && s.w.caller.Idle?
    requires s.todo != [] || s.after != Nothing
    ensures Step(s, Next(s)).Some?
  {
  }
}
