/** The recording side of psdaq/drp/DrpBase.cc: chunked data files, the small-data
    index into them, and the chunk rollover spread over enable() and Enable. */
module EbReceiver {
  import opened Runs
  import Bits

  type byte = Bits.byte

  /** DefaultChunkThresh, 500 GB. */
  const THRESHOLD: nat := 500 * 1024 * 1024 * 1024

  /** Where the run control's state machine stands. */
  datatype Control = Halted | Starting | Paused | Enabling | Running

  /** A small-data record, with the chunk file that was open when it was made. */
  datatype Record = Record(chunk: nat, offset: nat, size: nat)

  /** files holds the run's chunk files by chunk id; open is the last one opened. */
  datatype State = State(
    control: Control, writing: bool, offset: nat, chunkOffset: nat, request: bool, pending: bool, chunkId: nat,
    config: seq<byte>, files: map<nat, seq<byte>>, open: nat, index: seq<Record>, written: seq<seq<byte>>)

  datatype Action =
    | Configure(dgram: seq<byte>)
    | StartRun(recording: bool)                 // phase 1 of BeginRun
    | BeginRun(dgram: seq<byte>)
    | PrepareEnable                             // phase 1 of Enable
    | Enable(dgram: seq<byte>)
    | L1Accept(dgram: seq<byte>, keep: bool)    // keep: the result persists or is prescaled
    | SlowUpdate(dgram: seq<byte>)
    | Disable(dgram: seq<byte>)
    | StepTransition(dgram: seq<byte>)          // BeginStep or EndStep
    | EndRun(dgram: seq<byte>)

  function ChunkSize(s: State): int {
    s.offset - s.chunkOffset
  }

  /** openFiles: chunk 0 of a new run. */
  function Opened(s: State): State {
    s.(writing := true, offset := 0, chunkOffset := 0, chunkId := 0,
       files := map[0 := []], open := 0, index := [], written := [])
  }

  /** _writeDgram */
  function Appended(s: State, dgram: seq<byte>): State {
    var data := if s.open in s.files then s.files[s.open] else [];
    var at := if ChunkSize(s) < 0 then 0 else ChunkSize(s);
    s.(files := s.files[s.open := data + dgram], index := s.index + [Record(s.open, at, |dgram|)],
       written := s.written + [dgram], offset := s.offset + |dgram|)
  }

  /** reopenFiles: the file named by the chunk id is created or truncated. */
  function Reopened(s: State): State {
    s.(request := false, chunkOffset := s.offset, open := s.chunkId, files := s.files[s.chunkId := []],
      pending := false)
  }

  function AppendedIf(s: State, dgram: seq<byte>): State {
    if s.writing then Appended(s, dgram) else s
  }

  /** What process does with a datagram, and what the phase 1 calls do. */
  function Step(s: State, a: Action): Option<State> {
    match a
    case Configure(dgram) =>
      if !s.control.Halted? then None else Some(AppendedIf(s.(config := dgram), dgram))
    case StartRun(recording) =>
      if !s.control.Halted? then None
      else
        var t := if recording then Opened(s) else s;
        Some(t.(control := Starting, chunkOffset := 0, request := false, pending := false))
    case BeginRun(dgram) =>
      if !s.control.Starting? then None
      else
        var t := s.(control := Paused, offset := 0);
        Some(AppendedIf(AppendedIf(t, s.config), dgram))
    case PrepareEnable =>
      if !s.control.Paused? && !s.control.Enabling? then None
      else if s.writing && ChunkSize(s) > THRESHOLD / 2 && !s.pending then
        Some(s.(control := Enabling, chunkId := s.chunkId + 1, pending := true, request := true))
      else Some(s.(control := Enabling))
    case Enable(dgram) =>
      if !s.control.Enabling? then None
      else
        var t := AppendedIf(s.(control := Running), dgram);
        Some(if s.writing && s.request then Reopened(t) else t)
    case L1Accept(dgram, keep) =>
      if !s.control.Running? then None
      else
        var t := if s.writing && ChunkSize(s) > THRESHOLD then s.(request := true) else s;
        Some(if keep then AppendedIf(t, dgram) else t)
    case SlowUpdate(dgram) =>
      if !s.control.Running? then None else Some(AppendedIf(s, dgram))
    case Disable(dgram) =>
      if !s.control.Running? then None else Some(AppendedIf(s.(control := Paused), dgram))
    case StepTransition(dgram) =>
      if !s.control.Paused? then None else Some(AppendedIf(s, dgram))
    case EndRun(dgram) =>
      if !s.control.Paused? then None else Some(AppendedIf(s, dgram).(control := Halted, writing := false))
  }

  function Flat(parts: seq<seq<byte>>): seq<byte> {
    if parts == [] then [] else Flat(parts[..|parts| - 1]) + parts[|parts| - 1]
  }

  /** The first n chunk files, one after another. */
  ghost function Chunks(files: map<nat, seq<byte>>, n: nat): seq<byte>
    requires forall k :: 0 <= k < n ==> k in files
  {
    if n == 0 then [] else Chunks(files, n - 1) + files[n - 1]
  }

  /** The record gives the place of the datagram in its chunk. */
  ghost predicate Locates(files: map<nat, seq<byte>>, r: Record, dgram: seq<byte>) {
    && r.chunk in files && r.offset + r.size <= |files[r.chunk]|
    && files[r.chunk][r.offset..r.offset + r.size] == dgram
  }

  ghost predicate Numbered(files: map<nat, seq<byte>>, open: nat) {
    forall k: nat :: k in files <==> k <= open
  }

  ghost predicate Indexed(files: map<nat, seq<byte>>, index: seq<Record>, written: seq<seq<byte>>) {
    |index| == |written| && forall i :: 0 <= i < |index| ==> Locates(files, index[i], written[i])
  }

  /** What the files and the index promise, during a run and after it. */
  ghost predicate Recorded(files: map<nat, seq<byte>>, open: nat, index: seq<Record>, written: seq<seq<byte>>) {
    && Numbered(files, open) && Indexed(files, index, written)
    && Chunks(files, open + 1) == Flat(written)
  }

  ghost predicate Protocol(s: State) {
    && s.offset >= s.chunkOffset && s.open in s.files && |s.files[s.open]| == ChunkSize(s)
    && s.chunkId == (if s.pending then s.open + 1 else s.open)
    && (s.pending ==> s.control.Enabling? && s.request)
    && (s.control.Enabling? && (s.request || ChunkSize(s) > THRESHOLD / 2) ==> s.pending)
    && (s.request ==> ChunkSize(s) > THRESHOLD / 2)
    && !s.control.Halted?
    && (s.control.Starting? ==> s.written == [] && s.offset == 0 && !s.request && s.open == 0)
    && (!s.control.Starting? ==> s.written != [] && s.written[0] == s.config)
  }

  ghost predicate Inv(s: State) {
    && (s.files.Keys != {} ==> Recorded(s.files, s.open, s.index, s.written))
    && (s.writing ==> s.files.Keys != {} && Protocol(s))
    && (s.control.Halted? ==> !s.writing)
  }

  lemma FlatAppend(parts: seq<seq<byte>>, p: seq<byte>)
    ensures Flat(parts + [p]) == Flat(parts) + p
  {
    assert (parts + [p])[..|parts|] == parts;
  }

  lemma {:induction false} ChunksSame(files: map<nat, seq<byte>>, files': map<nat, seq<byte>>, n: nat)
    requires forall k :: 0 <= k < n ==> k in files && k in files' && files[k] == files'[k]
    ensures Chunks(files, n) == Chunks(files', n)
  {
    if n > 0 {
      ChunksSame(files, files', n - 1);
    }
  }

  /** Appending a datagram to the open chunk, with its record. */
  lemma WriteRecorded(files: map<nat, seq<byte>>, open: nat, index: seq<Record>, written: seq<seq<byte>>,
                      dgram: seq<byte>)
    requires Recorded(files, open, index, written)
    ensures open in files
    ensures Recorded(files[open := files[open] + dgram], open,
                     index + [Record(open, |files[open]|, |dgram|)], written + [dgram])
  {
    WriteIndexed(files, open, index, written, dgram);
    WriteChunks(files, open, dgram);
    FlatAppend(written, dgram);
  }

  lemma WriteChunks(files: map<nat, seq<byte>>, open: nat, dgram: seq<byte>)
    requires Numbered(files, open)
    ensures open in files && Numbered(files[open := files[open] + dgram], open)
    ensures Chunks(files[open := files[open] + dgram], open + 1) == Chunks(files, open + 1) + dgram
  {
    ChunksSame(files, files[open := files[open] + dgram], open);
    assert Chunks(files, open) + (files[open] + dgram) == (Chunks(files, open) + files[open]) + dgram;
  }

  lemma WriteIndexed(files: map<nat, seq<byte>>, open: nat, index: seq<Record>, written: seq<seq<byte>>,
                     dgram: seq<byte>)
    requires open in files && Indexed(files, index, written)
    ensures Indexed(files[open := files[open] + dgram],
                    index + [Record(open, |files[open]|, |dgram|)], written + [dgram])
  {
    var files' := files[open := files[open] + dgram];
    forall i | 0 <= i < |index|
      ensures Locates(files', index[i], written[i])
    {
      assert Locates(files, index[i], written[i]);
      if index[i].chunk == open {
        assert files'[open][..|files[open]|] == files[open];
      }
    }
    assert files'[open][|files[open]|..|files[open]| + |dgram|] == dgram;
  }

  /** Opening the next chunk: a name not used before in this run. */
  lemma ReopenRecorded(files: map<nat, seq<byte>>, open: nat, index: seq<Record>, written: seq<seq<byte>>)
    requires Recorded(files, open, index, written)
    ensures open + 1 !in files
    ensures Recorded(files[open + 1 := []], open + 1, index, written)
  {
    var files' := files[open + 1 := []];
    assert open + 1 !in files;
    ChunksSame(files, files', open + 1);
    assert Chunks(files', open + 1) + [] == Chunks(files', open + 1);
    forall i | 0 <= i < |index|
      ensures Locates(files', index[i], written[i])
    {
      assert Locates(files, index[i], written[i]);
    }
  }

  lemma StartRecorded()
    ensures Recorded(map[0 := []], 0, [], [])
  {
    var files: map<nat, seq<byte>> := map[0 := []];
    assert Chunks(files, 1) == Chunks(files, 0) + files[0];
  }

  /** A datagram written while the protocol holds; the configuration comes first. */
  lemma WriteInv(s: State, dgram: seq<byte>)
    requires Inv(s) && s.writing && (s.control.Starting? ==> dgram == s.config)
    ensures var t := Appended(s, dgram);
            && Recorded(t.files, t.open, t.index, t.written)
            && t.offset >= t.chunkOffset && t.open in t.files && |t.files[t.open]| == ChunkSize(t)
            && ChunkSize(t) >= ChunkSize(s) && t.written != [] && t.written[0] == s.config
  {
    WriteRecorded(s.files, s.open, s.index, s.written, dgram);
  }

  lemma AppendedIfInv(s: State, dgram: seq<byte>)
    requires Inv(s) && !s.control.Starting? && !s.control.Enabling?
    ensures Inv(AppendedIf(s, dgram))
  {
    if s.writing {
      WriteInv(s, dgram);
    }
  }

  lemma ConfigFirst(s: State)
    requires Inv(s) && s.control.Starting? && s.writing
    ensures Inv(Appended(s.(offset := 0), s.config).(control := Paused))
  {
    WriteInv(s, s.config);
  }

  lemma BeginRunInv(s: State, dgram: seq<byte>)
    requires Inv(s) && s.control.Starting?
    ensures Inv(Step(s, BeginRun(dgram)).value)
  {
    if s.writing {
      ConfigFirst(s);
      AppendedIfInv(Appended(s.(offset := 0), s.config).(control := Paused), dgram);
    }
  }

  lemma EnableInv(s: State, dgram: seq<byte>)
    requires Inv(s) && s.control.Enabling?
    ensures Inv(Step(s, Enable(dgram)).value)
  {
    if s.writing {
      WriteInv(s, dgram);
      if s.request {
        ReopenInv(s, Appended(s.(control := Running), dgram));
      }
    }
  }

  lemma ReopenInv(s: State, t: State)
    requires s.writing && s.request && Protocol(s) && s.control.Enabling?
    requires t == s.(control := Running, offset := t.offset, files := t.files, index := t.index, written := t.written)
    requires Recorded(t.files, t.open, t.index, t.written) && t.open in t.files && t.written != [] &&
             t.written[0] == s.config
    ensures Inv(Reopened(t))
  {
    ReopenRecorded(t.files, t.open, t.index, t.written);
  }

  lemma StartRunInv(s: State, recording: bool)
    requires Inv(s) && s.control.Halted?
    ensures Inv(Step(s, StartRun(recording)).value)
  {
    StartRecorded();
  }

  lemma L1AcceptInv(s: State, dgram: seq<byte>, keep: bool)
    requires Inv(s) && s.control.Running?
    ensures Inv(Step(s, L1Accept(dgram, keep)).value)
  {
    AppendedIfInv(if s.writing && ChunkSize(s) > THRESHOLD then s.(request := true) else s, dgram);
  }

  lemma EndRunInv(s: State, dgram: seq<byte>)
    requires Inv(s) && s.control.Paused?
    ensures Inv(Step(s, EndRun(dgram)).value)
  {
    AppendedIfInv(s, dgram);
  }

  lemma DisableInv(s: State, dgram: seq<byte>)
    requires Inv(s) && s.control.Running?
    ensures Inv(Step(s, Disable(dgram)).value)
  {
    AppendedIfInv(s.(control := Paused), dgram);
  }

  lemma PhaseInv(s: State, a: Action)
    requires Inv(s) && Step(s, a).Some? && (a.Configure? || a.PrepareEnable?)
    ensures Inv(Step(s, a).value)
  {
  }

  lemma StepInv(s: State, a: Action)
    requires Inv(s) && Step(s, a).Some?
    ensures Inv(Step(s, a).value)
  {
    match a
    case Configure(_) => PhaseInv(s, a);
    case StartRun(recording) => StartRunInv(s, recording);
    case BeginRun(dgram) => BeginRunInv(s, dgram);
    case PrepareEnable => PhaseInv(s, a);
    case Enable(dgram) => EnableInv(s, dgram);
    case L1Accept(dgram, keep) => L1AcceptInv(s, dgram, keep);
    case SlowUpdate(dgram) => AppendedIfInv(s, dgram);
    case Disable(dgram) => DisableInv(s, dgram);
    case StepTransition(dgram) => AppendedIfInv(s, dgram);
    case EndRun(dgram) => EndRunInv(s, dgram);
  }

  ghost predicate Reachable(s0: State, acts: seq<Action>, s: State) {
    && s0.control.Halted? && !s0.writing && s0.files == map[]
    && Exec(Step, s0, acts) == Some(s)
  }

  lemma ReachableInv(s0: State, acts: seq<Action>, s: State)
    requires Reachable(s0, acts, s)
    ensures Inv(s)
  {
    forall t: State, a: Action {:trigger Step(t, a)} | Inv(t) && Step(t, a).Some? ensures Inv(Step(t, a).value) {
      StepInv(t, a);
    }
    Runs.Invariant(Step, Inv, s0, acts);
  }

  /** What a run should record, from the actions alone. */
  datatype Script = Script(recording: bool, config: seq<byte>, dgrams: seq<seq<byte>>)

  function Follow(r: Script, a: Action): Script {
    match a
    case Configure(dgram) => r.(config := dgram)
    case StartRun(recording) => if recording then r.(recording := true, dgrams := []) else r
    case BeginRun(dgram) => if r.recording then r.(dgrams := r.dgrams + [r.config, dgram]) else r
    case PrepareEnable => r
    case L1Accept(dgram, keep) => if r.recording && keep then r.(dgrams := r.dgrams + [dgram]) else r
    case EndRun(dgram) => if r.recording then r.(recording := false, dgrams := r.dgrams + [dgram]) else r
    case _ => if r.recording then r.(dgrams := r.dgrams + [a.dgram]) else r
  }

  function Expected(r: Script, acts: seq<Action>): Script {
    if acts == [] then r else Follow(Expected(r, acts[..|acts| - 1]), acts[|acts| - 1])
  }

  lemma {:induction false} WrittenAsExpected(s0: State, acts: seq<Action>, s: State)
    requires Reachable(s0, acts, s)
    ensures Expected(Script(false, s0.config, s0.written), acts) == Script(s.writing, s.config, s.written)
  {
    if acts != [] {
      var n := |acts| - 1;
      var t := Exec(Step, s0, acts[..n]).value;
      WrittenAsExpected(s0, acts[..n], t);
      ReachableInv(s0, acts[..n], t);
      FollowStep(t, acts[n]);
    }
  }

  lemma FollowStep(s: State, a: Action)
    requires Inv(s) && Step(s, a).Some?
    ensures Follow(Script(s.writing, s.config, s.written), a)
         == Script(Step(s, a).value.writing, Step(s, a).value.config, Step(s, a).value.written)
  {
    if a.BeginRun? {
      assert (s.written + [s.config]) + [a.dgram] == s.written + [s.config, a.dgram];
    }
  }

  /** In every run, across any number of rollovers: the chunk files in order are the
      datagrams that should be recorded in order, the configuration first, and each
      record of the index gives the place of its datagram in its chunk. */
  lemma RunIsRecorded(s0: State, acts: seq<Action>, s: State)
    requires Reachable(s0, acts, s) && s.files != map[]
    ensures Numbered(s.files, s.open)
    ensures Chunks(s.files, s.open + 1) == Flat(Expected(Script(false, s0.config, s0.written), acts).dgrams)
    ensures |s.index| == |s.written| && forall i :: 0 <= i < |s.index| ==> Locates(s.files, s.index[i], s.written[i])
    ensures s.writing && !s.control.Starting? ==> s.written != [] && s.written[0] == s.config
  {
    ReachableInv(s0, acts, s);
    WrittenAsExpected(s0, acts, s);
  }

  /** enable() announces a chunk exactly when the open one is over half the threshold. */
  lemma AdvanceWhenDue(s0: State, acts: seq<Action>, s: State)
    requires Reachable(s0, acts, s) && s.writing && s.control.Paused?
    ensures var t := Step(s, PrepareEnable).value;
            && t.request == t.pending == (ChunkSize(s) > THRESHOLD / 2)
            && t.chunkId == s.open + if ChunkSize(s) > THRESHOLD / 2 then 1 else 0
  {
    ReachableInv(s0, acts, s);
  }

  /** Enable then opens that chunk, a file not opened before in the run, after writing
      its own datagram to the old one; otherwise the open chunk stays. */
  lemma RolloverWhenDue(s0: State, acts: seq<Action>, s: State, dgram: seq<byte>)
    requires Reachable(s0, acts, s) && s.writing && s.control.Enabling?
    ensures var t := Step(s, Enable(dgram)).value;
            && s.open in s.files && t.open in t.files && s.open in t.files
            && t.files[s.open] == s.files[s.open] + dgram
            && !t.pending && t.chunkId == t.open == s.chunkId
            && (if ChunkSize(s) > THRESHOLD / 2 then
                  t.open == s.open + 1 && t.open !in s.files && t.files[t.open] == [] && ChunkSize(t) == 0
                else t.open == s.open)
  {
    ReachableInv(s0, acts, s);
  }

  datatype TransitionId =
    | ConfigureId
    | BeginRunId
    | BeginStepId
    | EnableId
    | L1AcceptId
    | SlowUpdateId
    | DisableId
    | EndStepId
    | EndRunId

  /** The action of processing a datagram. */
  function ActionOf(id: TransitionId, dgram: seq<byte>, keep: bool): Action {
    match id
    case ConfigureId => Configure(dgram)
    case BeginRunId => BeginRun(dgram)
    case EnableId => Enable(dgram)
    case L1AcceptId => L1Accept(dgram, keep)
    case SlowUpdateId => SlowUpdate(dgram)
    case DisableId => Disable(dgram)
    case EndRunId => EndRun(dgram)
    case _ => StepTransition(dgram)
  }

  /** Where a datagram takes the run control's state machine. */
  function NextControl(c: Control, id: TransitionId): Control {
    match id
    case EnableId => Running
    case EndRunId => Halted
    case ConfigureId => c
    case L1AcceptId => c
    case SlowUpdateId => c
    case _ => Paused
  }

  /** The files and the index after a datagram, in the order of process. */
  function Kept(s: State, id: TransitionId, dgram: seq<byte>, keep: bool): State {
    if !s.writing || (id.L1AcceptId? && !keep) then s
    else
      var t := Appended(if id.BeginRunId? then Appended(s.(offset := 0), s.config) else s, dgram);
      if id.EnableId? && s.request then Reopened(t)
      else if id.EndRunId? then t.(writing := false) else t
  }

  function Processed(s: State, id: TransitionId, dgram: seq<byte>, keep: bool): State {
    var t := s.(config := if id.ConfigureId? then dgram else s.config,
                offset := if id.BeginRunId? then 0 else s.offset,
                request := s.request || (s.writing && id.L1AcceptId? && ChunkSize(s) > THRESHOLD));
    Kept(t, id, dgram, keep).(control := NextControl(s.control, id))
  }

  lemma ProcessedIsStep(s: State, id: TransitionId, dgram: seq<byte>, keep: bool)
    requires Step(s, ActionOf(id, dgram, keep)).Some? && (keep ==> id.L1AcceptId?)
    ensures Step(s, ActionOf(id, dgram, keep)) == Some(Processed(s, id, dgram, keep))
  {
  }

  class EbReceiver {
    var offset: nat
    var chunkOffset: nat
    var writing: bool
    var chunkRequest: bool
    var chunkPending: bool
    var chunkId: nat              // of m_fileParameters
    var configureBuffer: seq<byte>
    var openId: nat
    var index: seq<Record>        // the small-data file
    ghost var control: Control
    ghost var files: map<nat, seq<byte>>
    ghost var written: seq<seq<byte>>

    ghost function View(): State
      reads this
    {
      State(control, writing, offset, chunkOffset, chunkRequest, chunkPending, chunkId,
            configureBuffer, files, openId, index, written)
    }

    constructor ()
      ensures View().control.Halted? && !View().writing && View().files == map[]
    {
      offset, chunkOffset, writing, chunkRequest, chunkPending := 0, 0, false, false, false;
      chunkId, openId, configureBuffer, index := 0, 0, [], [];
      control, files, written := Halted, map[], [];
    }

    method OpenFiles()
      modifies this
      ensures View() == Opened(old(View()))
    {
      chunkOffset, offset := 0, 0;
      openId, index := 0, [];
      files, written := map[0 := []], [];
      writing := true;
      chunkId := 0;
    }

    /** True if the chunk id was incremented. */
    method AdvanceChunkId() returns (status: bool)
      modifies this`chunkId, this`chunkPending
      ensures status == !old(chunkPending) && chunkPending
      ensures chunkId == if status then old(chunkId) + 1 else old(chunkId)
    {
      status := false;
      if !chunkPending {
        chunkId := chunkId + 1;
        chunkPending := true;
        status := true;
      }
    }

    method ReopenFiles() returns (ok: bool)
      modifies this
      ensures ok == writing
      ensures View() == if old(writing) then Reopened(old(View())) else old(View())
    {
      if !writing {
        return false;
      }
      chunkRequest := false;
      chunkOffset := offset;
      openId := chunkId;
      files := files[chunkId := []];
      chunkPending := false;
      return true;
    }

    method WriteDgram(dgram: seq<byte>)
      requires offset >= chunkOffset && openId in files
      modifies this`files, this`index, this`written, this`offset
      ensures View() == Appended(old(View()), dgram)
    {
      files := files[openId := files[openId] + dgram];
      index := index + [Record(openId, offset - chunkOffset, |dgram|)];
      written := written + [dgram];
      offset := offset + |dgram|;
    }

    /** Phase 1 of BeginRun; a run number of zero means not recording. */
    method StartRun(runNumber: nat)
      requires control.Halted?
      modifies this
      ensures Some(View()) == Step(old(View()), Action.StartRun(runNumber != 0))
    {
      if runNumber != 0 {
        OpenFiles();
      }
      chunkOffset := 0;
      chunkRequest := false;
      chunkPending := false;
      control := Starting;
    }

    /** Phase 1 of Enable; announced is the id of the chunk to come, if any. */
    method PrepareEnable() returns (announced: Option<nat>)
      requires (control.Paused? || control.Enabling?) && (writing ==> offset >= chunkOffset)
      modifies this
      ensures Some(View()) == Step(old(View()), Action.PrepareEnable)
      ensures announced.Some? <==> old(writing && ChunkSize(View()) > THRESHOLD / 2 && !chunkPending)
      ensures announced.Some? ==> announced.value == chunkId == old(chunkId) + 1
    {
      announced := None;
      control := Enabling;
      if writing && offset - chunkOffset > THRESHOLD / 2 {
        var status := AdvanceChunkId();
        if status {
          chunkRequest := true;
          announced := Some(chunkId);
        }
      }
    }

    /** The recording part of process. Transitions carry no event builder decision. */
    method Process(id: TransitionId, dgram: seq<byte>, keep: bool)
      requires keep ==> id.L1AcceptId?
      requires Step(View(), ActionOf(id, dgram, keep)).Some?
      requires writing ==> offset >= chunkOffset && openId in files && (id.BeginRunId? ==> chunkOffset == 0)
      modifies this
      ensures Some(View()) == Step(old(View()), ActionOf(id, dgram, keep))
    {
      ProcessedIsStep(View(), id, dgram, keep);
      if id.ConfigureId? {
        configureBuffer := dgram;
      } else if id.BeginRunId? {
        offset := 0;
      }
      if writing && !chunkRequest && id.L1AcceptId? {
        if offset - chunkOffset > THRESHOLD {
          chunkRequest := true;
        }
      }
      Keep(id, dgram, keep);
      control := NextControl(control, id);
    }

    /** Writing, when recording: what the event builder keeps, and every transition. */
    method Keep(id: TransitionId, dgram: seq<byte>, keep: bool)
      requires keep ==> id.L1AcceptId?
      requires writing ==> offset >= chunkOffset && openId in files && (id.BeginRunId? ==> chunkOffset == 0)
      modifies this
      ensures View() == Kept(old(View()), id, dgram, keep)
    {
      if writing {
        if keep {
          WriteDgram(dgram);
        } else if !id.L1AcceptId? {
          ProcessTransition(id, dgram);
        }
      }
    }

    /** Writing a transition while recording, and the files it opens or closes. */
    method ProcessTransition(id: TransitionId, dgram: seq<byte>)
      requires writing && offset >= chunkOffset && openId in files && !id.L1AcceptId?
      requires id.BeginRunId? ==> chunkOffset == 0
      modifies this
      ensures var s := if id.BeginRunId? then Appended(old(View()).(offset := 0), configureBuffer) else old(View());
              var t := Appended(s, dgram);
              View() == if id.EnableId? && old(chunkRequest) then Reopened(t)
                        else if id.EndRunId? then t.(writing := false) else t
    {
      if id.BeginRunId? {
        offset := 0;
        WriteDgram(configureBuffer);
      }
      WriteDgram(dgram);
      if id.EnableId? && chunkRequest {
        var ok := ReopenFiles();
      } else if id.EndRunId? {
        writing := false;
      }
    }
  }

  lemma Halved(n: nat, m: nat, count: nat)
    requires m > 0 && m * Bits.Pow2(count) <= n < (m + 1) * Bits.Pow2(count)
    ensures (m / 2) * Bits.Pow2(count + 1) <= n < (m / 2 + 1) * Bits.Pow2(count + 1)
    ensures Bits.Pow2(count) <= n
  {
    var p := Bits.Pow2(count);
    assert (m / 2) * (2 * p) == (m / 2 * 2) * p;
    assert (m / 2 + 1) * (2 * p) == (m / 2 * 2 + 2) * p;
    MulMono(m / 2 * 2, m, p);
    MulMono(m + 1, m / 2 * 2 + 2, p);
    MulMono(1, m, p);
  }

  lemma MulMono(a: nat, b: nat, p: nat)
    requires a <= b
    ensures a * p <= b * p
  {
  }

  lemma BetweenPowers(n: nat, count: nat, p: nat)
    requires count > 0 && Bits.Pow2(count - 1) < n <= p && Bits.IsPow2(p)
    ensures Bits.Pow2(count) <= p
  {
    var j: nat :| p == Bits.Pow2(j);
    if j < count {
      Bits.Pow2Mono(j, count - 1);
    } else {
      Bits.Pow2Mono(count, j);
    }
  }

  lemma PowersBelow32()
    ensures Bits.Pow2(31) == 0x8000_0000 && Bits.Pow2(32) == 0x1_0000_0000
    ensures forall p :: Bits.IsPow2(p) && p < 0x1_0000_0000 ==> p <= 0x8000_0000
  {
    Bits.Pow2Constants();
    assert Bits.Pow2(32) == 2 * Bits.Pow2(31);
    forall p | Bits.IsPow2(p) && p < 0x1_0000_0000
      ensures p <= 0x8000_0000
    {
      var j: nat :| p == Bits.Pow2(j);
      if j < 32 {
        Bits.Pow2Mono(j, 31);
      } else {
        Bits.Pow2Mono(32, j);
      }
    }
  }

  /** nextPowerOf2, on 32-bit values: nothing when the shift would be by 32. */
  method NextPowerOf2(n: nat) returns (r: Option<nat>)
    requires n < 0x1_0000_0000
    ensures r.Some? <==> n <= 0x8000_0000
    ensures r.Some? ==> Bits.IsPow2(r.value) && n <= r.value
    ensures r.Some? ==> forall p :: Bits.IsPow2(p) && n <= p ==> r.value <= p
  {
    PowersBelow32();
    if n != 0 {
      Bits.PowerTest(n);
      if Bits.And(n, n - 1) == 0 {
        return Some(n);
      }
    }
    var m: nat, count: nat := n, 0;
    while m != 0
      invariant m * Bits.Pow2(count) <= n < (m + 1) * Bits.Pow2(count)
      invariant count > 0 && m == 0 ==> Bits.Pow2(count - 1) <= n
      invariant count == 0 ==> m == n
      decreases m
    {
      Halved(n, m, count);
      m := m / 2;
      count := count + 1;
    }
    Smallest(n, count);
    r := if count < 32 then Some(Bits.Pow2(count)) else None;
  }

  lemma Smallest(n: nat, count: nat)
    requires n < Bits.Pow2(count) && (n == 0 || !Bits.IsPow2(n))
    requires if count == 0 then n == 0 else Bits.Pow2(count - 1) <= n
    ensures forall p :: Bits.IsPow2(p) && n <= p ==> Bits.Pow2(count) <= p
    ensures count < 32 <==> n <= 0x8000_0000
  {
    PowersBelow32();
    if count > 0 {
      assert Bits.IsPow2(Bits.Pow2(count - 1));
      forall p | Bits.IsPow2(p) && n <= p ensures Bits.Pow2(count) <= p {
        BetweenPowers(n, count, p);
      }
    }
    if count < 32 {
      Bits.Pow2Mono(count, 31);
    } else {
      Bits.Pow2Mono(31, count - 1);
    }
  }

  function Digit(d: nat): char
    requires d < 10
  {
    "0123456789"[d]
  }

  function Decimal(n: nat): string {
    if n < 10 then [Digit(n)] else Decimal(n / 10) + [Digit(n % 10)]
  }

  /** What process writes for a datagram while files are open: the configuration before
      BeginRun, L1Accepts that are kept, and every transition. */
  lemma ProcessedIsWritten(s0: State, acts: seq<Action>, s: State, a: Action)
    requires Reachable(s0, acts, s) && s.writing && Step(s, a).Some? && !a.StartRun? && !a.PrepareEnable?
    ensures Step(s, a).value.written ==
            s.written + if a.BeginRun? then [s.config, a.dgram] else if a.L1Accept? && !a.keep then [] else [a.dgram]
    ensures Step(s, a).value.writing <==> !a.EndRun?
  {
    ReachableInv(s0, acts, s);
    if a.BeginRun? {
      assert (s.written + [s.config]) + [a.dgram] == s.written + [s.config, a.dgram];
    } else if a.L1Accept? && !a.keep {
      assert s.written + [] == s.written;
    }
  }

  /** The configuration kept is that of the last Configure. */
  function LastConfig(acts: seq<Action>, default: seq<byte>): seq<byte> {
    if acts == [] then default
    else
      var last := acts[|acts| - 1];
      if last.Configure? then last.dgram else LastConfig(acts[..|acts| - 1], default)
  }

  lemma {:induction false} ConfigIsLatest(s0: State, acts: seq<Action>, s: State)
    requires Exec(Step, s0, acts) == Some(s)
    ensures s.config == LastConfig(acts, s0.config)
  {
    if acts != [] {
      var n := |acts| - 1;
      var t := Exec(Step, s0, acts[..n]).value;
      ConfigIsLatest(s0, acts[..n], t);
      ConfigStays(t, acts[n]);
    }
  }

  lemma ConfigStays(s: State, a: Action)
    requires Step(s, a).Some?
    ensures Step(s, a).value.config == if a.Configure? then a.dgram else s.config
  {
  }

  /** An L1Accept asks for a new chunk exactly when the open one is over the threshold,
      kept or not; what was asked for is opened by the next Enable and not before. */
  lemma RequestedWhenOver(s0: State, acts: seq<Action>, s: State, a: Action)
    requires Reachable(s0, acts, s) && s.writing && Step(s, a).Some?
    ensures a.L1Accept? ==> (Step(s, a).value.request <==> s.request || ChunkSize(s) > THRESHOLD)
    ensures s.request && !a.Enable? && !a.StartRun? ==> Step(s, a).value.request && Step(s, a).value.open == s.open
    ensures s.request && a.Enable? ==> Step(s, a).value.open == s.open + 1 && !Step(s, a).value.request
  {
    ReachableInv(s0, acts, s);
  }

  /** Names as the data files have them. */
  lemma NameExamples()
    ensures RunName("mfxx49820", 7, 12, 0) == "mfxx49820-r0007-s012-c000"
  {
    PaddedExamples();
    FieldExample(Padded(7, 4), Padded(12, 3), Padded(0, 3));
  }

  lemma PaddedExamples()
    ensures Padded(7, 4) == "0007" && Padded(12, 3) == "012" && Padded(0, 3) == "000"
  {
  }

  lemma FieldExample(r: string, s: string, c: string)
    requires r == "0007" && s == "012" && c == "000"
    ensures "mfxx49820" + Field("-r", r, Field("-s", s, Field("-c", c, ""))) == "mfxx49820-r0007-s012-c000"
  {
  }

  /** setfill('0') and setw(width) */
  function Padded(n: nat, width: nat): string {
    seq(if |Decimal(n)| < width then width - |Decimal(n)| else 0, _ => '0') + Decimal(n)
  }

  /** FileParameters::runName */
  function RunName(experiment: string, run: nat, node: nat, chunk: nat): string {
    experiment + Field("-r", Padded(run, 4), Field("-s", Padded(node, 3), Field("-c", Padded(chunk, 3), "")))
  }

  function Field(tag: string, number: string, rest: string): string {
    tag + number + rest
  }

  function DigitValue(c: char): nat {
    if '0' <= c <= '9' then (c - '0') as nat else 0
  }

  function Parsed(s: string): nat {
    if s == [] then 0 else 10 * Parsed(s[..|s| - 1]) + DigitValue(s[|s| - 1])
  }

  predicate AllDigits(s: string) {
    forall i :: 0 <= i < |s| ==> '0' <= s[i] <= '9'
  }

  lemma {:induction false} ParseDecimal(n: nat)
    ensures Parsed(Decimal(n)) == n && AllDigits(Decimal(n))
  {
    if n >= 10 {
      ParseDecimal(n / 10);
      assert Decimal(n)[..|Decimal(n)| - 1] == Decimal(n / 10);
    }
  }

  lemma {:induction false} LeadingZeros(k: nat, s: string)
    ensures Parsed(seq(k, _ => '0') + s) == Parsed(s)
    decreases k + |s|
  {
    var t := seq(k, _ => '0') + s;
    if s != [] {
      LeadingZeros(k, s[..|s| - 1]);
      assert t[..|t| - 1] == seq(k, _ => '0') + s[..|s| - 1];
    } else if k > 0 {
      LeadingZeros(k - 1, s);
      assert t[..|t| - 1] == seq(k - 1, _ => '0') + s;
    }
  }

  /** Reading a padded number back. */
  lemma ParsePadded(n: nat, width: nat)
    ensures Parsed(Padded(n, width)) == n && AllDigits(Padded(n, width))
  {
    ParseDecimal(n);
    LeadingZeros(if |Decimal(n)| < width then width - |Decimal(n)| else 0, Decimal(n));
  }

  /** How many digits a string starts with. */
  function LeadingDigits(s: string): nat {
    if s != [] && '0' <= s[0] <= '9' then 1 + LeadingDigits(s[1..]) else 0
  }

  lemma {:induction false} DigitsThen(a: string, x: string)
    requires AllDigits(a) && (x != [] ==> x[0] == '-')
    ensures LeadingDigits(a + x) == |a|
  {
    if a == [] {
      assert a + x == x;
    } else {
      DigitsThen(a[1..], x);
      assert (a + x)[1..] == a[1..] + x;
    }
  }

  /** A number's end is seen, since what follows starts with a dash. */
  lemma DigitsEnd(a: string, b: string, x: string, y: string)
    requires AllDigits(a) && AllDigits(b)
    requires (x != [] ==> x[0] == '-') && (y != [] ==> y[0] == '-')
    requires a + x == b + y
    ensures a == b && x == y
  {
    DigitsThen(a, x);
    DigitsThen(b, y);
    assert a == (a + x)[..|a|] && x == (a + x)[|a|..];
    assert b == (b + y)[..|b|] && y == (b + y)[|b|..];
  }

  lemma FieldParts(tag: string, a: string, x: string, b: string, y: string)
    requires Field(tag, a, x) == Field(tag, b, y)
    requires AllDigits(a) && AllDigits(b)
    requires (x != [] ==> x[0] == '-') && (y != [] ==> y[0] == '-')
    ensures a == b && x == y
  {
    assert Field(tag, a, x) == tag + (a + x) && Field(tag, b, y) == tag + (b + y);
    SameTail(tag, a + x, b + y);
    DigitsEnd(a, b, x, y);
  }

  lemma SameTail(head: string, x: string, y: string)
    requires head + x == head + y
    ensures x == y
  {
    assert (head + x)[|head|..] == x && (head + y)[|head|..] == y;
  }

  /** No two chunks, nodes or runs of an experiment share a file name. */
  lemma NamesDiffer(experiment: string, run: nat, node: nat, chunk: nat, run': nat, node': nat, chunk': nat)
    requires RunName(experiment, run, node, chunk) == RunName(experiment, run', node', chunk')
    ensures run == run' && node == node' && chunk == chunk'
  {
    ParsePadded(run, 4);
    ParsePadded(run', 4);
    ParsePadded(node, 3);
    ParsePadded(node', 3);
    ParsePadded(chunk, 3);
    ParsePadded(chunk', 3);
    var c, c' := Field("-c", Padded(chunk, 3), ""), Field("-c", Padded(chunk', 3), "");
    var s, s' := Field("-s", Padded(node, 3), c), Field("-s", Padded(node', 3), c');
    SameTail(experiment, Field("-r", Padded(run, 4), s), Field("-r", Padded(run', 4), s'));
    FieldParts("-r", Padded(run, 4), s, Padded(run', 4), s');
    FieldParts("-s", Padded(node, 3), c, Padded(node', 3), c');
    FieldParts("-c", Padded(chunk, 3), "", Padded(chunk', 3), "");
  }
}
