/** The event builder of psdaq/drp/PGPDetector.cc: a reader assembles lanes into
    events and packs consecutive event counters into batches, workers process the
    batches, and a collector hands the events to the TEB. */
module PgpDetector {
  import opened Runs
  import Bits
  import RR = RoundRobin

  /** Event counters have 24 bits; the program's own arithmetic has 32. */
  const COUNTERS: nat := 0x100_0000
  const WORD32: nat := 0x1_0000_0000

  datatype Batch = Batch(start: nat, size: nat)

  datatype Tid = L1Accept | SlowUpdate | BeginRun | OtherTransition

  /** The lanes that have contributed to an event: its mask. */
  type Lanes = set<nat>

  /** nbuffers is 2^k. counters and whole are histories: every event counter
      consumed, and whether its event was complete or skipped over as broken;
      pos of them have been examined by the collector, released of them freed. */
  datatype State = State(
    k: nat, laneMask: Lanes, lastComplete: nat, batch: Batch, batchId: nat, batchSize: nat,
    masks: seq<Lanes>, pipe: RR.State<Batch>, current: Batch, i: nat, teb: seq<nat>,
    counters: seq<nat>, whole: seq<bool>, pos: nat, released: nat, lastTime: real)

  /** A DMA buffer's timing header, with its time in seconds. */
  datatype Frame = Frame(counter: nat, lane: nat, tid: Tid, pulseId: nat, time: real)

  datatype Action =
    | Read(f: Frame)
    | Take(worker: nat)
    | Finish(worker: nat)
    | Collect
    | Examine
    | Release

  function NBuffers(k: nat): (n: nat)
    ensures n > 0
  {
    Bits.Pow2(k)
  }

  /** counter & bufferMask */
  function Slot(k: nat, counter: nat): (i: nat)
    ensures i == counter % NBuffers(k)
  {
    Bits.AndMask(counter, k);
    Bits.And(counter, NBuffers(k) - 1)
  }

  function Next(counter: nat): nat {
    (counter + 1) % COUNTERS
  }

  /** The event counters a batch stands for. */
  function Expand(b: Batch): (c: seq<nat>)
    ensures |c| == b.size
  {
    seq(b.size, i requires 0 <= i < b.size => (b.start + i) % COUNTERS)
  }

  function Flatten(bs: seq<Batch>): seq<nat> {
    if bs == [] then [] else Flatten(bs[..|bs| - 1]) + Expand(bs[|bs| - 1])
  }

  /** Masks of n consecutive counters zeroed: the repair of a counter jump. */
  function Clear(k: nat, masks: seq<Lanes>, from: nat, n: nat): (r: seq<Lanes>)
    requires |masks| == NBuffers(k)
    ensures |r| == |masks|
  {
    if n == 0 then masks else Clear(k, masks, from, n - 1)[Slot(k, from + n - 1) := {}]
  }

  /** How often the repair loop runs: it counts in 32 bits from one counter to the other. */
  function RepairCount(last: nat, counter: nat): nat {
    (counter - last - 1) % WORD32
  }

  /** The counters an event consumes: those jumped over, then its own. A jump backwards
      goes around in 32 bits. */
  function Consumed(last: nat, counter: nat): seq<nat> {
    if counter == Next(last) then [counter]
    else if last < counter then seq(counter - last, i requires 0 <= i => last + 1 + i)
    else seq(RepairCount(last, counter) + 1, i requires 0 <= i => (last + 1 + i) % WORD32 % COUNTERS)
  }

  function Reset(s: State): State {
    s.(lastComplete := 0, batch := Batch(1, 0))
  }

  /** ~(batchSize - 1) in 32 bits */
  function BatchMask(batchSize: nat): nat {
    (WORD32 - batchSize % WORD32) % WORD32
  }

  /** A full batch, judged on the pulse id bits above the batch size, or a transition. */
  predicate Flush(batchId: nat, batchSize: nat, f: Frame) {
    || Bits.And(Bits.Xor(batchId, f.pulseId), BatchMask(batchSize)) != 0
    || f.tid.BeginRun? || f.tid.OtherTransition?
  }

  function Dispatch(s: State, f: Frame): State
    requires s.pipe.n > 0 && |s.pipe.inQ| == s.pipe.n
  {
    if !Flush(s.batchId, s.batchSize, f) then s
    else s.(pipe := RR.DispatchTo(s.pipe, s.batch), batch := Batch(f.counter + 1, 0), batchId := f.pulseId)
  }

  /** Only the last of the counters an event consumes is that of a whole event. */
  function LastIsWhole(n: nat): (w: seq<bool>)
    ensures |w| == n
  {
    seq(n, i => i == n - 1)
  }

  /** The event numbered counter is complete: account for it and any jumped over. */
  function Account(s: State, counter: nat): State
    requires |s.masks| == NBuffers(s.k)
  {
    var c := Consumed(s.lastComplete, counter);
    s.(masks := Clear(s.k, s.masks, s.lastComplete + 1, |c| - 1),
       batch := s.batch.(size := (s.batch.size + |c|) % WORD32), lastComplete := counter,
       counters := s.counters + c, whole := s.whole + LastIsWhole(|c|))
  }

  function Complete(s: State, f: Frame): State
    requires |s.masks| == NBuffers(s.k) && s.pipe.n > 0 && |s.pipe.inQ| == s.pipe.n
  {
    Dispatch(Account(s, f.counter).(lastTime := f.time), f)
  }

  predicate SlotFree(s: State, slot: nat) {
    forall j :: s.released <= j < |s.counters| ==> Slot(s.k, s.counters[j]) != slot
  }

  /** What the readout guarantees: counters of events in flight span less than
      the buffers, so no slot still in use is written; a counter jump does not
      straddle the 24-bit wrap; BeginRun finds no batch pending. */
  predicate FrameOk(s: State, f: Frame) {
    && f.counter < COUNTERS && f.lane in s.laneMask
    && SlotFree(s, Slot(s.k, f.counter))
  }

  predicate CompletionOk(s: State, f: Frame) {
    && (f.tid.BeginRun? ==> s.batch.size == 0)
    && (var last := if f.tid.BeginRun? then 0 else s.lastComplete;
        f.counter != Next(last) ==>
          && last < f.counter <= last + NBuffers(s.k)
          && forall c :: last < c < f.counter ==> SlotFree(s, Slot(s.k, c)))
  }

  /** The frame is the last one its event waits for. */
  predicate Completes(s: State, f: Frame)
    requires |s.masks| == NBuffers(s.k)
  {
    s.masks[Slot(s.k, f.counter)] + {f.lane} == s.laneMask
  }

  /** Within a second after the last complete event. */
  predicate Recent(lastTime: real, time: real) {
    0.0 <= time - lastTime <= 1.0
  }

  /** The reader on any DMA buffer; None where it throws. */
  function ReadFrame(s: State, f: Frame): Option<State>
    requires |s.masks| == NBuffers(s.k) && s.pipe.n > 0 && |s.pipe.inQ| == s.pipe.n
  {
    var slot := Slot(s.k, f.counter);
    var t := s.(masks := s.masks[slot := s.masks[slot] + {f.lane}]);
    if t.masks[slot] != s.laneMask then Some(t)
    else
      var u := if f.tid.BeginRun? then Reset(t) else t;
      if f.counter != Next(u.lastComplete) && (!f.tid.L1Accept? || !Recent(s.lastTime, f.time)) then None
      else Some(Complete(u, f))
  }

  function Step(s: State, a: Action): Option<State> {
    match a
    case Read(f) =>
      if !FrameOk(s, f) || |s.masks| != NBuffers(s.k) || s.pipe.n == 0 || |s.pipe.inQ| != s.pipe.n then None
      else if Completes(s, f) && !CompletionOk(s, f) then None
      else ReadFrame(s, f)
    case Take(w) => if RR.CanTake(s.pipe, w) then Some(s.(pipe := RR.DoTake(s.pipe, w))) else None
    case Finish(w) => if RR.CanFinish(s.pipe, w) then Some(s.(pipe := RR.DoFinish(s.pipe, w))) else None
    case Collect =>
      if s.i != s.current.size || !RR.CanCollect(s.pipe) then None
      else
        var b := s.pipe.outQ[|s.pipe.collected| % s.pipe.n][0];
        Some(s.(pipe := RR.DoCollect(s.pipe), current := b, i := 0))
    case Examine =>
      if s.i >= s.current.size || |s.masks| != NBuffers(s.k) then None
      else
        var index := Slot(s.k, s.current.start + s.i);
        var sent := if s.masks[index] == {} then [] else [index];
        Some(s.(i := s.i + 1, pos := s.pos + 1, teb := s.teb + sent))
    case Release =>
      if s.released >= s.pos || s.pos > |s.counters| || |s.masks| != NBuffers(s.k) then None
      else Some(s.(masks := s.masks[Slot(s.k, s.counters[s.released]) := {}], released := s.released + 1))
  }

  ghost predicate Initial(s: State) {
    && s.k <= 24 && s.laneMask != {}
    && s == Reset(s) && s.masks == seq(NBuffers(s.k), i => {})
    && s.pipe.n > 0 && s.pipe == RR.Idle<Batch>(s.pipe.n)
    && s.current == Batch(0, 0) && s.i == 0 && s.teb == [] && s.counters == [] && s.whole == []
    && s.pos == 0 && s.released == 0 && s.lastTime == 0.0
  }

  /** What the TEB should be given for a stretch of counters. */
  function Indices(k: nat, counters: seq<nat>, whole: seq<bool>): seq<nat>
    requires |counters| == |whole|
  {
    if counters == [] then []
    else
      var n := |counters| - 1;
      Indices(k, counters[..n], whole[..n]) + if whole[n] then [Slot(k, counters[n])] else []
  }

  /** Dispatched batches, then the pending one, partition the counters consumed,
      and the pending batch ends where the next counter begins. */
  ghost predicate BatchesOk(s: State) {
    && Flatten(s.pipe.dispatched) + Expand(s.batch) == s.counters
    && (s.batch.start + s.batch.size) % COUNTERS == Next(s.lastComplete)
    && s.lastComplete < COUNTERS && |s.whole| == |s.counters|
  }

  ghost predicate CollectorOk(collected: seq<Batch>, current: Batch, i: nat, pos: nat) {
    && i <= current.size
    && (collected == [] ==> current.size == 0 && pos == 0)
    && (collected != [] ==>
          current == collected[|collected| - 1] && pos == |Flatten(collected[..|collected| - 1])| + i)
  }

  /** Unreleased events own distinct slots, whose masks say whether they are whole. */
  ghost predicate MasksOk(k: nat, laneMask: Lanes, masks: seq<Lanes>, counters: seq<nat>, whole: seq<bool>,
                          released: nat) {
    && |masks| == NBuffers(k) && |whole| == |counters| && laneMask != {}
    && (forall j :: released <= j < |counters| ==>
          masks[Slot(k, counters[j])] == if whole[j] then laneMask else {})
    && (forall j, l :: released <= j < l < |counters| ==> Slot(k, counters[j]) != Slot(k, counters[l]))
  }

  ghost predicate Inv(s: State) {
    && s.k <= 24 && BatchesOk(s) && RR.Inv(s.pipe)
    && CollectorOk(s.pipe.collected, s.current, s.i, s.pos)
    && s.released <= s.pos <= |s.counters|
    && MasksOk(s.k, s.laneMask, s.masks, s.counters, s.whole, s.released)
    && s.teb == Indices(s.k, s.counters[..s.pos], s.whole[..s.pos])
  }

  /** The collector's index of a batch entry is the reader's index of the same
      event, across the 24-bit wrap and whatever 32-bit value start + i has. */
  lemma SameSlot(k: nat, b: Batch, i: nat)
    requires k <= 24 && i < b.size
    ensures Slot(k, b.start + i) == Slot(k, Expand(b)[i])
  {
    Bits.Pow2Add(k, 24 - k);
    Bits.Pow2Constants();
    Bits.ModMod(b.start + i, NBuffers(k), Bits.Pow2(24 - k));
  }

  lemma {:induction false} ClearAt(k: nat, masks: seq<Lanes>, from: nat, n: nat, slot: nat)
    requires |masks| == NBuffers(k) && slot < |masks|
    ensures Clear(k, masks, from, n)[slot] ==
            if exists c :: from <= c < from + n && Slot(k, c) == slot then {} else masks[slot]
  {
    if n > 0 {
      ClearAt(k, masks, from, n - 1, slot);
      assert Slot(k, from + n - 1) == slot || Slot(k, from + n - 1) != slot;
    }
  }

  lemma AddMod(x: nat, y: nat, i: nat)
    requires x % COUNTERS == y % COUNTERS
    ensures (x + i) % COUNTERS == (y + i) % COUNTERS
  {
  }

  /** Growing the pending batch by the counters an event consumes lists exactly those. */
  lemma ExpandGrows(b: Batch, last: nat, counter: nat)
    requires (b.start + b.size) % COUNTERS == Next(last) && last < COUNTERS && counter < COUNTERS
    requires counter == Next(last) || last < counter
    ensures var c := Consumed(last, counter);
            && Expand(b.(size := b.size + |c|)) == Expand(b) + c
            && (b.start + b.size + |c|) % COUNTERS == Next(counter)
  {
    var c := Consumed(last, counter);
    var grown := Expand(b.(size := b.size + |c|));
    forall i | 0 <= i < |c| ensures grown[b.size + i] == c[i] {
      AddMod(b.start + b.size, last + 1, i);
    }
    AddMod(b.start + b.size, last + 1, |c|);
  }

  lemma FlattenAppend(bs: seq<Batch>, b: Batch)
    ensures Flatten(bs + [b]) == Flatten(bs) + Expand(b)
  {
    assert (bs + [b])[..|bs|] == bs;
  }

  lemma {:induction false} FlattenPrefix(a: seq<Batch>, b: seq<Batch>)
    requires a <= b
    ensures Flatten(a) <= Flatten(b)
  {
    if a != b {
      FlattenPrefix(a, b[..|b| - 1]);
    } else {
      assert Flatten(a) == Flatten(b);
    }
  }

  /** A frame that completes nothing only fills in a lane of a free slot. */
  lemma LaneKeepsMasks(s: State, slot: nat, lanes: Lanes)
    requires Inv(s) && slot < NBuffers(s.k) && SlotFree(s, slot)
    ensures MasksOk(s.k, s.laneMask, s.masks[slot := lanes], s.counters, s.whole, s.released)
  {
  }

  lemma ConsumedSlots(s: State, last: nat, counter: nat)
    requires counter == Next(last) || last < counter <= last + NBuffers(s.k)
    requires SlotFree(s, Slot(s.k, counter))
    requires counter != Next(last) ==> forall c :: last < c < counter ==> SlotFree(s, Slot(s.k, c))
    ensures var cs := Consumed(last, counter);
            && (forall a :: 0 <= a < |cs| ==> SlotFree(s, Slot(s.k, cs[a])))
            && (forall a, b :: 0 <= a < b < |cs| ==> Slot(s.k, cs[a]) != Slot(s.k, cs[b]))
            && (forall a :: 0 <= a < |cs| - 1 ==> cs[a] == last + 1 + a)
  {
    var cs := Consumed(last, counter);
    forall a, b | 0 <= a < b < |cs| ensures Slot(s.k, cs[a]) != Slot(s.k, cs[b]) {
      Bits.ModDiffer(cs[a], cs[b], NBuffers(s.k));
    }
  }

  /** Recording the counters an event consumes keeps the slots of unreleased
      events distinct and truthful. */
  lemma CompleteKeepsMasks(s: State, last: nat, counter: nat)
    requires MasksOk(s.k, s.laneMask, s.masks, s.counters, s.whole, s.released)
    requires s.masks[Slot(s.k, counter)] == s.laneMask
    requires counter == Next(last) || last < counter <= last + NBuffers(s.k)
    requires SlotFree(s, Slot(s.k, counter))
    requires counter != Next(last) ==> forall c :: last < c < counter ==> SlotFree(s, Slot(s.k, c))
    requires s.released <= |s.counters|
    ensures var cs := Consumed(last, counter);
            MasksOk(s.k, s.laneMask, Clear(s.k, s.masks, last + 1, |cs| - 1), s.counters + cs,
                    s.whole + LastIsWhole(|cs|), s.released)
  {
    var cs := Consumed(last, counter);
    ConsumedSlots(s, last, counter);
    var masks := Clear(s.k, s.masks, last + 1, |cs| - 1);
    var counters := s.counters + cs;
    var whole := s.whole + LastIsWhole(|cs|);
    var n := |s.counters|;
    forall j | s.released <= j < |counters|
      ensures masks[Slot(s.k, counters[j])] == if whole[j] then s.laneMask else {}
    {
      ClearAt(s.k, s.masks, last + 1, |cs| - 1, Slot(s.k, counters[j]));
      forall c | last + 1 <= c < last + |cs| && Slot(s.k, c) == Slot(s.k, counters[j])
        ensures j >= n && j != |counters| - 1
      {
        assert cs[c - last - 1] == c;
      }
      if n <= j < |counters| - 1 {
        assert counters[j] == last + 1 + (j - n);
      }
    }
    forall j, l | s.released <= j < l < |counters| ensures Slot(s.k, counters[j]) != Slot(s.k, counters[l]) {
      if j >= n {
        assert counters[j] == cs[j - n];
      }
      if l >= n {
        assert counters[l] == cs[l - n];
      }
    }
  }

  lemma IndicesPrefix(counters: seq<nat>, whole: seq<bool>, more: seq<nat>, w: seq<bool>, n: nat)
    requires |counters| == |whole| && |more| == |w| && n <= |counters|
    ensures (counters + more)[..n] == counters[..n] && (whole + w)[..n] == whole[..n]
  {
    assert (counters + more)[..n] == counters[..n];
    assert (whole + w)[..n] == whole[..n];
  }

  lemma DispatchKeepsInv(s: State, f: Frame)
    requires Inv(s) && f.counter == s.lastComplete
    ensures Inv(Dispatch(s, f))
  {
    RR.DispatchKeepsInv(s.pipe, s.batch);
    FlattenAppend(s.pipe.dispatched, s.batch);
  }

  /** The unreleased events, the pending batch's among them, are at most the buffers. */
  lemma UnreleasedFit(k: nat, laneMask: Lanes, masks: seq<Lanes>, counters: seq<nat>, whole: seq<bool>, released: nat)
    requires MasksOk(k, laneMask, masks, counters, whole, released) && released <= |counters| && k <= 24
    ensures |counters| - released <= NBuffers(k) <= COUNTERS
  {
    var slots := seq(|counters| - released,
      i requires 0 <= i < |counters| - released => Slot(k, counters[released + i]));
    Bits.Pigeonhole(slots, NBuffers(k));
    Bits.Pow2Mono(k, 24);
    Bits.Pow2Constants();
  }

  lemma ReleasedAreDispatched(s: State)
    requires Inv(s)
    ensures s.pos <= |Flatten(s.pipe.dispatched)| && |s.counters| == |Flatten(s.pipe.dispatched)| + s.batch.size
  {
    var c := s.pipe.collected;
    FlattenPrefix(c, s.pipe.dispatched);
    if c != [] {
      assert Flatten(c) == Flatten(c[..|c| - 1]) + Expand(s.current);
    }
  }

  lemma AccountKeepsBatches(s: State, counter: nat)
    requires Inv(s) && counter < COUNTERS
    requires counter == Next(s.lastComplete) || s.lastComplete < counter
    requires s.batch.size + |Consumed(s.lastComplete, counter)| < WORD32
    ensures BatchesOk(Account(s, counter))
  {
    var c := Consumed(s.lastComplete, counter);
    var grown := s.batch.(size := s.batch.size + |c|);
    NoWrap(s.batch.size + |c|);
    ExpandGrows(s.batch, s.lastComplete, counter);
    Regroup(Flatten(s.pipe.dispatched), Expand(s.batch), c, Expand(grown));
    assert Account(s, counter).batch == grown;
  }

  lemma NoWrap(x: nat)
    requires x < WORD32
    ensures x % WORD32 == x
  {
  }

  lemma Regroup(a: seq<nat>, b: seq<nat>, c: seq<nat>, bc: seq<nat>)
    requires bc == b + c
    ensures a + bc == (a + b) + c
  {
  }

  /** A complete event, with the counters jumped over, may join the pending batch. */
  ghost predicate MayComplete(s: State, f: Frame)
    requires |s.masks| == NBuffers(s.k)
  {
    && f.counter < COUNTERS
    && s.masks[Slot(s.k, f.counter)] == s.laneMask && SlotFree(s, Slot(s.k, f.counter))
    && (f.counter == Next(s.lastComplete) || s.lastComplete < f.counter <= s.lastComplete + NBuffers(s.k))
    && (f.counter != Next(s.lastComplete) ==>
          forall c :: s.lastComplete < c < f.counter ==> SlotFree(s, Slot(s.k, c)))
  }

  lemma AccountKeepsInv(s: State, f: Frame)
    requires Inv(s) && MayComplete(s, f)
    ensures Inv(Account(s, f.counter))
  {
    var c := Consumed(s.lastComplete, f.counter);
    CompleteKeepsMasks(s, s.lastComplete, f.counter);
    UnreleasedFit(s.k, s.laneMask, Clear(s.k, s.masks, s.lastComplete + 1, |c| - 1), s.counters + c,
                  s.whole + LastIsWhole(|c|), s.released);
    ReleasedAreDispatched(s);
    AccountKeepsBatches(s, f.counter);
    IndicesPrefix(s.counters, s.whole, c, LastIsWhole(|c|), s.pos);
  }

  lemma CompleteKeepsInv(s: State, f: Frame)
    requires Inv(s) && MayComplete(s, f)
    ensures Inv(Complete(s, f))
  {
    AccountKeepsInv(s, f);
    DispatchKeepsInv(Account(s, f.counter).(lastTime := f.time), f);
  }

  lemma ResetKeepsInv(s: State)
    requires Inv(s) && s.batch.size == 0
    ensures Inv(Reset(s))
  {
    assert Expand(s.batch) == Expand(Batch(1, 0));
  }

  lemma ReadKeepsInv(s: State, f: Frame)
    requires Inv(s) && Step(s, Read(f)).Some?
    ensures Inv(ReadFrame(s, f).value)
  {
    var slot := Slot(s.k, f.counter);
    var lanes := s.masks[slot] + {f.lane};
    LaneKeepsMasks(s, slot, lanes);
    var t := s.(masks := s.masks[slot := lanes]);
    assert Inv(t);
    if lanes == s.laneMask {
      if f.tid.BeginRun? {
        ResetKeepsInv(t);
        CompleteKeepsInv(Reset(t), f);
      } else {
        CompleteKeepsInv(t, f);
      }
    }
  }

  lemma CollectKeepsInv(s: State)
    requires Inv(s) && Step(s, Collect).Some?
    ensures Inv(Step(s, Collect).value)
  {
    var s' := Step(s, Collect).value;
    var c := s.pipe.collected;
    RR.CollectsNext(s.pipe);
    RR.CollectKeepsInv(s.pipe);
    assert s'.pipe.collected[..|c|] == c;
    if c == [] {
      assert s.pos == |Flatten(c)|;
    } else {
      assert Flatten(c) == Flatten(c[..|c| - 1]) + Expand(c[|c| - 1]);
    }
  }

  /** What the collector looks at is the next counter consumed. */
  lemma ExaminesNext(s: State)
    requires Inv(s) && s.i < s.current.size
    ensures s.pos < |s.counters| && Slot(s.k, s.current.start + s.i) == Slot(s.k, s.counters[s.pos])
  {
    var c := s.pipe.collected;
    FlattenPrefix(c, s.pipe.dispatched);
    assert Flatten(c) == Flatten(c[..|c| - 1]) + Expand(s.current);
    assert Flatten(c)[s.pos] == Expand(s.current)[s.i];
    assert Flatten(s.pipe.dispatched)[s.pos] == s.counters[s.pos];
    SameSlot(s.k, s.current, s.i);
  }

  lemma ExamineKeepsInv(s: State)
    requires Inv(s) && Step(s, Examine).Some?
    ensures Inv(Step(s, Examine).value)
  {
    ExaminesNext(s);
    var s' := Step(s, Examine).value;
    assert s.counters[..s.pos + 1][..s.pos] == s.counters[..s.pos];
    assert s.whole[..s.pos + 1][..s.pos] == s.whole[..s.pos];
    assert (s.masks[Slot(s.k, s.counters[s.pos])] != {}) == s.whole[s.pos];
  }

  lemma ReleaseKeepsInv(s: State)
    requires Inv(s) && Step(s, Release).Some?
    ensures Inv(Step(s, Release).value)
  {
  }

  lemma StepKeepsInv(s: State, a: Action)
    requires Inv(s) && Step(s, a).Some?
    ensures Inv(Step(s, a).value)
  {
    match a
    case Read(f) => ReadKeepsInv(s, f);
    case Take(w) => RR.TakeKeepsInv(s.pipe, w);
    case Finish(w) => RR.FinishKeepsInv(s.pipe, w);
    case Collect => CollectKeepsInv(s);
    case Examine => ExamineKeepsInv(s);
    case Release => ReleaseKeepsInv(s);
  }

  lemma InitialInv(s: State)
    requires Initial(s)
    ensures Inv(s)
  {
    RR.IdleInv<Batch>(s.pipe.n);
  }

  lemma Reachable(s0: State, acts: seq<Action>)
    requires Initial(s0)
    ensures Exec(Step, s0, acts).Some? ==> Inv(Exec(Step, s0, acts).value)
  {
    InitialInv(s0);
    forall s: State, a: Action {:trigger Step(s, a)} | Inv(s) && Step(s, a).Some? ensures Inv(Step(s, a).value) {
      StepKeepsInv(s, a);
    }
    Invariant(Step, Inv, s0, acts);
  }

  /** Counters follow one another, but for the restart at 1 that BeginRun makes. */
  ghost predicate InSequence(last: nat, counters: seq<nat>) {
    && (counters == [] ==> last == 0)
    && (counters != [] ==> last == counters[|counters| - 1])
    && (forall j :: 0 < j < |counters| ==> counters[j] == Next(counters[j - 1]) || counters[j] == 1)
    && (counters != [] ==> counters[0] == 1)
  }

  lemma ExtendSequence(before: nat, last: nat, counters: seq<nat>, counter: nat)
    requires InSequence(before, counters) && (last == before || last == 0)
    requires counter == Next(last) || last < counter < COUNTERS
    ensures InSequence(counter, counters + Consumed(last, counter))
  {
    var c := Consumed(last, counter);
    var all := counters + c;
    assert c[0] == Next(last);
    forall j | 0 < j < |all| ensures all[j] == Next(all[j - 1]) || all[j] == 1 {
      if j > |counters| {
        assert all[j] == c[j - |counters|] && all[j - 1] == c[j - 1 - |counters|];
      }
    }
  }

  lemma CompleteInSequence(s: State, f: Frame)
    requires Inv(s) && Step(s, Read(f)).Some? && InSequence(s.lastComplete, s.counters)
    ensures InSequence(ReadFrame(s, f).value.lastComplete, ReadFrame(s, f).value.counters)
  {
    var slot := Slot(s.k, f.counter);
    if s.masks[slot] + {f.lane} == s.laneMask {
      ExtendSequence(s.lastComplete, if f.tid.BeginRun? then 0 else s.lastComplete, s.counters, f.counter);
    }
  }

  ghost predicate Sequenced(s: State) {
    Inv(s) && InSequence(s.lastComplete, s.counters)
  }

  lemma StepKeepsSequence(s: State, a: Action)
    requires Sequenced(s) && Step(s, a).Some?
    ensures Sequenced(Step(s, a).value)
  {
    StepKeepsInv(s, a);
    if a.Read? {
      CompleteInSequence(s, a.f);
    } else {
      assert Step(s, a).value.counters == s.counters && Step(s, a).value.lastComplete == s.lastComplete;
    }
  }

  lemma ReachableInSequence(s0: State, acts: seq<Action>)
    requires Initial(s0)
    ensures Exec(Step, s0, acts).Some? ==> Sequenced(Exec(Step, s0, acts).value)
  {
    InitialInv(s0);
    forall s: State, a: Action {:trigger Step(s, a)} | Sequenced(s) && Step(s, a).Some?
      ensures Sequenced(Step(s, a).value)
    {
      StepKeepsSequence(s, a);
    }
    Invariant(Step, Sequenced, s0, acts);
  }

  /** For every schedule of reader, workers, collector and buffer release: the
      batches the collector gets are those dispatched, in that order; event
      counters are consumed in sequence; and the TEB is given, in counter order
      and once each, exactly the complete events the collector has come to,
      broken ones being skipped. */
  lemma EventsInCounterOrder(s0: State, acts: seq<Action>)
    requires Initial(s0)
    ensures var r := Exec(Step, s0, acts);
            r.Some? ==>
              var s := r.value;
              && s.pipe.collected <= s.pipe.dispatched
              && InSequence(s.lastComplete, s.counters)
              && s.pos <= |s.counters| == |s.whole|
              && s.teb == Indices(s.k, s.counters[..s.pos], s.whole[..s.pos])
  {
    ReachableInSequence(s0, acts);
  }

  /** Batches partition the counters consumed, jumped-over ones included, and the
      pending batch ends just before the next counter, modulo 2^24. */
  lemma BatchesPartitionCounters(s0: State, acts: seq<Action>)
    requires Initial(s0)
    ensures Exec(Step, s0, acts).Some? ==> BatchesOk(Exec(Step, s0, acts).value)
  {
    Reachable(s0, acts);
  }

  /** While a dispatched event is unexamined, the collector can examine it or
      collect its batch, or the worker owing that batch can move. */
  ghost predicate CollectorMoves(s: State) {
    s.pipe.n > 0 && s.pos < |Flatten(s.pipe.dispatched)| ==>
      var w := |s.pipe.collected| % s.pipe.n;
      Step(s, Examine).Some? || Step(s, Collect).Some? || Step(s, Finish(w)).Some? || Step(s, Take(w)).Some?
  }

  lemma InvMoves(s: State)
    requires Inv(s)
    ensures CollectorMoves(s)
  {
    if s.pos < |Flatten(s.pipe.dispatched)| && s.i == s.current.size {
      var c := s.pipe.collected;
      assert c != [] ==> Flatten(c) == Flatten(c[..|c| - 1]) + Expand(s.current);
      assert s.pos == |Flatten(c)|;
      assert c != s.pipe.dispatched;
      assert |c| < |s.pipe.dispatched|;
      RR.PipelineMoves(s.pipe);
    }
  }

  lemma CollectorNeverStuck(s0: State, acts: seq<Action>)
    requires Initial(s0)
    ensures Exec(Step, s0, acts).Some? ==> CollectorMoves(Exec(Step, s0, acts).value)
  {
    Reachable(s0, acts);
    if Exec(Step, s0, acts).Some? {
      InvMoves(Exec(Step, s0, acts).value);
    }
  }

  /** BeginRun's reset keeps the batches a partition of the counters consumed if
      and only if no batch was pending; otherwise the pending counters are dropped. */
  lemma ResetNeedsEmptyBatch(s: State)
    requires BatchesOk(s)
    ensures BatchesOk(Reset(s)) <==> s.batch.size == 0
  {
    assert |Flatten(s.pipe.dispatched) + Expand(s.batch)| == |Flatten(s.pipe.dispatched)| + s.batch.size;
    assert Flatten(s.pipe.dispatched) + [] == Flatten(s.pipe.dispatched);
    if s.batch.size == 0 {
      assert Expand(s.batch) == [] == Expand(Batch(1, 0));
    }
  }

  /** The repair loop accounts for the 24-bit gap if and only if the jump is
      forward without crossing the wrap; else it runs over about 2^32 counters. */
  lemma RepairIsExact(last: nat, counter: nat)
    requires last < COUNTERS && counter < COUNTERS && counter != Next(last)
    ensures RepairCount(last, counter) == (counter - last - 1) % COUNTERS <==> last < counter
  {
    if last < counter {
      assert (counter - last - 1) % WORD32 == counter - last - 1 == (counter - last - 1) % COUNTERS;
    } else {
      assert (counter - last - 1) % WORD32 == counter - last - 1 + WORD32;
    }
  }

  lemma ConsumedSize(last: nat, counter: nat)
    requires last < COUNTERS && counter < COUNTERS
    ensures |Consumed(last, counter)| == 1 + if counter == Next(last) then 0 else RepairCount(last, counter)
  {
  }

  lemma ClearNext(k: nat, masks: seq<Lanes>, from: nat, n: nat)
    requires |masks| == NBuffers(k)
    ensures Clear(k, masks, from, n + 1) == Clear(k, masks, from, n)[Slot(k, from + n) := {}]
  {
  }

  lemma Slot32(k: nat, e: nat)
    requires k <= 24
    ensures Slot(k, e % WORD32) == Slot(k, e)
  {
    Bits.Pow2Add(k, 32 - k);
    Bits.Pow2Constants();
    Bits.ModMod(e, NBuffers(k), Bits.Pow2(32 - k));
  }

  /** The loop variable after n turns. */
  function Counter32(last: nat, n: nat): (e: nat)
    ensures e < WORD32
  {
    (last + 1 + n) % WORD32
  }

  lemma RepairAdvances(last: nat, counter: nat, n: nat)
    requires last < COUNTERS && counter < COUNTERS && n <= RepairCount(last, counter)
    ensures Counter32(last, n) == counter <==> n == RepairCount(last, counter)
    ensures (Counter32(last, n) + 1) % WORD32 == Counter32(last, n + 1)
  {
  }

  /** The indices of a batch that are not broken, as worker and collector both visit them. */
  function Unbroken(k: nat, masks: seq<Lanes>, b: Batch, n: nat): seq<nat>
    requires |masks| == NBuffers(k)
  {
    if n == 0 then []
    else
      var index := Slot(k, b.start + n - 1);
      Unbroken(k, masks, b, n - 1) + if masks[index] == {} then [] else [index]
  }

  /** The state after n examinations of the current batch. */
  function Examined(s: State, n: nat): State
    requires |s.masks| == NBuffers(s.k)
  {
    s.(i := n, pos := s.pos + n, teb := s.teb + Unbroken(s.k, s.masks, s.current, n))
  }

  lemma ExamineOnce(s: State, n: nat)
    requires |s.masks| == NBuffers(s.k) && 0 < n <= s.current.size
    ensures Step(Examined(s, n - 1), Examine) == Some(Examined(s, n))
  {
    var index := Slot(s.k, s.current.start + n - 1);
    var sent := if s.masks[index] == {} then [] else [index];
    assert (s.teb + Unbroken(s.k, s.masks, s.current, n - 1)) + sent == s.teb + Unbroken(s.k, s.masks, s.current, n);
  }

  /** Examining n entries of the current batch sends its unbroken indices. */
  lemma {:induction false} ExamineMany(s: State, n: nat)
    requires |s.masks| == NBuffers(s.k) && s.i == 0 && n <= s.current.size
    ensures Exec(Step, s, seq(n, j => Examine)) == Some(Examined(s, n))
  {
    var acts := seq(n, j => Examine);
    if n == 0 {
      assert acts == [];
      assert s.teb + [] == s.teb;
    } else {
      ExamineMany(s, n - 1);
      assert acts[..n - 1] == seq(n - 1, j => Examine) && acts[n - 1] == Examine;
      ExamineOnce(s, n);
    }
  }

  lemma ExaminedKeepsInv(s: State, n: nat)
    requires Inv(s) && s.i == 0 && n <= s.current.size
    ensures Inv(Examined(s, n))
  {
    forall t: State, a: Action {:trigger Step(t, a)} | Inv(t) && Step(t, a).Some? ensures Inv(Step(t, a).value) {
      StepKeepsInv(t, a);
    }
    ExamineMany(s, n);
    Invariant(Step, Inv, s, seq(n, j => Examine));
  }

  /** The window of batchSize pulse ids that a pulse id is in, by its low 32 bits. */
  function Window(pulseId: nat, batchSize: nat): nat
    requires batchSize > 0
  {
    (pulseId % WORD32) / batchSize
  }

  /** The size of a batch, as the command line should give it. */
  ghost predicate SizeOk(batchSize: nat) {
    0 < batchSize < WORD32 && Bits.IsPow2(batchSize)
  }

  lemma SizeExponent(batchSize: nat) returns (k: nat)
    requires SizeOk(batchSize)
    ensures k < 32 && batchSize == Bits.Pow2(k)
  {
    k :| batchSize == Bits.Pow2(k);
    Bits.Pow2Constants();
    if k >= 32 {
      Bits.Pow2Mono(32, k);
    }
  }

  /** A batch goes out with every transition but SlowUpdate, and otherwise exactly when
      the frame's pulse id is in another window than that of the frame before the batch. */
  lemma FlushIff(batchId: nat, batchSize: nat, f: Frame)
    requires SizeOk(batchSize)
    ensures Flush(batchId, batchSize, f) <==>
            (f.tid != L1Accept && f.tid != SlowUpdate) || Window(f.pulseId, batchSize) != Window(batchId, batchSize)
  {
    var k := SizeExponent(batchSize);
    MaskIs(k);
    Bits.WindowTest(batchId, f.pulseId, k, 32);
    Bits.Pow2Constants();
  }

  lemma MaskIs(k: nat)
    requires k < 32
    ensures Bits.Pow2(k) <= Bits.Pow2(32) && BatchMask(Bits.Pow2(k)) == Bits.Pow2(32) - Bits.Pow2(k)
  {
    Bits.Pow2Constants();
    Bits.Pow2Mono(k, 31);
    assert Bits.Pow2(32) == 2 * Bits.Pow2(31);
  }

  /** Pulse ids are in one window of all their bits exactly when they are in one by their
      low 32 bits and agree in the others: the mask is a 32-bit one. */
  lemma WholeWindow(x: nat, y: nat, batchSize: nat)
    requires SizeOk(batchSize)
    ensures x / batchSize == y / batchSize <==>
            Window(x, batchSize) == Window(y, batchSize) && x / WORD32 == y / WORD32
  {
    var k := SizeExponent(batchSize);
    Bits.Pow2Add(k, 32 - k);
    Bits.Pow2Constants();
    var c := Bits.Pow2(32 - k);
    SplitDivide(x, batchSize, c);
    SplitDivide(y, batchSize, c);
    SameDigits(x / WORD32, Window(x, batchSize), y / WORD32, Window(y, batchSize), c);
  }

  lemma SplitDivide(x: nat, b: nat, c: nat)
    requires b > 0 && c > 0
    ensures b * c > 0 && (x % (b * c)) / b < c && x / b == (x / (b * c)) * c + (x % (b * c)) / b
  {
    assert b * c > 0 by { Bits.MulAtLeast(c, b); }
    var q, r := x / (b * c), x % (b * c);
    assert x == (b * c) * q + r;
    var d := r / b;
    assert r == b * d + r % b;
    assert x == (q * c + d) * b + r % b by {
      assert (q * c + d) * b == (q * c) * b + d * b;
      assert (q * c) * b == (b * c) * q;
    }
    Bits.ModUnique(x, b, q * c + d, r % b);
    if d >= c {
      Times(b, c, d);
    }
  }

  lemma Times(b: nat, c: nat, d: nat)
    requires c <= d
    ensures b * c <= b * d
  {
    assert b * d == b * c + b * (d - c);
  }

  lemma SameDigits(q: nat, d: nat, q': nat, d': nat, c: nat)
    requires d < c && d' < c
    ensures q * c + d == q' * c + d' <==> q == q' && d == d'
  {
    Bits.ModUnique(q * c + d, c, q, d);
    Bits.ModUnique(q' * c + d', c, q', d');
  }

  /** So a pulse id 2^32 later does not send the batch. */
  lemma HighBitsIgnored(f: Frame)
    requires f.tid == L1Accept && f.pulseId == WORD32
    ensures SizeOk(4) && f.pulseId / 4 != 0 / 4 && !Flush(0, 4, f)
  {
    assert Bits.Pow2(2) == 4 by { assert Bits.Pow2(1) == 2 * Bits.Pow2(0); }
    FlushIff(0, 4, f);
  }

  /** The pending batch as a complete event leaves it, before it may be sent: one entry
      more, or as many as the counter jumped, in 32 bits. */
  function Pending(b: Batch, last: nat, counter: nat): Batch {
    Batch(b.start, (b.size + if counter == Next(last) then 1 else counter - last) % WORD32)
  }

  lemma AccountPending(s: State, counter: nat)
    requires |s.masks| == NBuffers(s.k) && s.lastComplete < COUNTERS && counter < COUNTERS
    ensures Account(s, counter).batch == Pending(s.batch, s.lastComplete, counter)
  {
    ConsumedSize(s.lastComplete, counter);
    if counter != Next(s.lastComplete) {
      var r := RepairCount(s.lastComplete, counter);
      assert (s.batch.size + (r + 1)) % WORD32 == (s.batch.size + (counter - s.lastComplete)) % WORD32;
    }
  }

  /** The frame completes an event whose counter is not the next one, and is not an
      L1Accept soon after the last. */
  predicate Throws(s: State, f: Frame)
    requires |s.masks| == NBuffers(s.k)
  {
    && Completes(s, f) && f.counter != Next(if f.tid == BeginRun then 0 else s.lastComplete)
    && (f.tid != L1Accept || !Recent(s.lastTime, f.time))
  }

  /** What becomes of the pending batch, by arithmetic and the frame's kind. */
  ghost predicate BatchOutcome(batch: Batch, batchId: nat, batchSize: nat, f: Frame, pipe: RR.State<Batch>, t: State)
    requires SizeOk(batchSize) && pipe.n > 0 && |pipe.inQ| == pipe.n
  {
    if (f.tid != L1Accept && f.tid != SlowUpdate) || Window(f.pulseId, batchSize) != Window(batchId, batchSize) then
      var w := |pipe.dispatched| % pipe.n;
      && t.pipe.dispatched == pipe.dispatched + [batch]
      && t.pipe.inQ == pipe.inQ[w := pipe.inQ[w] + [batch]]
      && t.batch == Batch(f.counter + 1, 0) && t.batchId == f.pulseId
    else
      t.pipe == pipe && t.batch == batch && t.batchId == batchId
  }

  /** What a DMA buffer that does not throw leaves. */
  ghost predicate FrameOutcome(s: State, f: Frame, t: State)
    requires |s.masks| == NBuffers(s.k) && s.pipe.n > 0 && |s.pipe.inQ| == s.pipe.n
  {
    if Completes(s, f) then
      var b, last := if f.tid == BeginRun then Batch(1, 0) else s.batch, if f.tid == BeginRun then 0
        else s.lastComplete;
      && t.lastComplete == f.counter && t.lastTime == f.time
      && (SizeOk(s.batchSize) ==> BatchOutcome(Pending(b, last, f.counter), s.batchId, s.batchSize, f, s.pipe, t))
    else
      var slot := Slot(s.k, f.counter);
      t == s.(masks := s.masks[slot := s.masks[slot] + {f.lane}])
  }

  lemma DispatchOutcome(s: State, f: Frame)
    requires SizeOk(s.batchSize) && s.pipe.n > 0 && |s.pipe.inQ| == s.pipe.n
    ensures BatchOutcome(s.batch, s.batchId, s.batchSize, f, s.pipe, Dispatch(s, f))
  {
    FlushIff(s.batchId, s.batchSize, f);
  }

  lemma CompleteOutcome(s: State, f: Frame)
    requires |s.masks| == NBuffers(s.k) && s.pipe.n > 0 && |s.pipe.inQ| == s.pipe.n
    requires s.lastComplete < COUNTERS && f.counter < COUNTERS
    ensures var t := Complete(s, f);
            && t.lastComplete == f.counter && t.lastTime == f.time
            && (SizeOk(s.batchSize) ==>
                  BatchOutcome(Pending(s.batch, s.lastComplete, f.counter), s.batchId, s.batchSize, f, s.pipe, t))
  {
    AccountPending(s, f.counter);
    if SizeOk(s.batchSize) {
      DispatchOutcome(Account(s, f.counter).(lastTime := f.time), f);
    }
  }

  lemma ReadOutcome(s: State, f: Frame)
    requires |s.masks| == NBuffers(s.k) && s.pipe.n > 0 && |s.pipe.inQ| == s.pipe.n
    requires s.lastComplete < COUNTERS && f.counter < COUNTERS
    ensures ReadFrame(s, f).None? <==> Throws(s, f)
    ensures ReadFrame(s, f).Some? ==> FrameOutcome(s, f, ReadFrame(s, f).value)
  {
    var slot := Slot(s.k, f.counter);
    var t := s.(masks := s.masks[slot := s.masks[slot] + {f.lane}]);
    if Completes(s, f) && !Throws(s, f) {
      CompleteOutcome(if f.tid == BeginRun then Reset(t) else t, f);
    }
  }

  lemma TakenIsStep(s: State, f: Frame, t: State)
    requires |s.masks| == NBuffers(s.k) && s.pipe.n > 0 && |s.pipe.inQ| == s.pipe.n && ReadFrame(s, f) == Some(t)
    ensures Inv(s) && Step(s, Read(f)).Some? ==> Inv(t) && Step(s, Read(f)) == Some(t)
  {
    if Inv(s) && Step(s, Read(f)).Some? {
      StepKeepsInv(s, Read(f));
    }
  }

  /** The detector's shared state; each method is one thread's loop body. */
  class PGPDetector {
    const k: nat
    const laneMask: Lanes
    const nworkers: nat
    const batchSize: nat
    var lastComplete: nat
    var lastTime: real
    var batch: Batch
    var batchId: nat
    var pgpEvents: array<Lanes>
    var workerInputQueues: seq<seq<Batch>>
    var workerOutputQueues: seq<seq<Batch>>
    var readerWorker: nat
    var collectorWorker: nat
    var teb: seq<nat>
    ghost var hand: seq<Option<Batch>>
    ghost var dispatched: seq<Batch>
    ghost var collected: seq<Batch>
    var current: Batch
    var i: nat
    ghost var counters: seq<nat>
    ghost var whole: seq<bool>
    ghost var pos: nat
    ghost var released: nat

    ghost function Pipe(): RR.State<Batch>
      reads this
    {
      RR.State(nworkers, workerInputQueues, hand, workerOutputQueues, dispatched, collected)
    }

    ghost function View(): State
      reads this, pgpEvents
    {
      State(k, laneMask, lastComplete, batch, batchId, batchSize, pgpEvents[..], Pipe(), current, i, teb,
            counters, whole, pos, released, lastTime)
    }

    ghost predicate Valid()
      reads this, pgpEvents
    {
      Inv(View()) && readerWorker == |dispatched| && collectorWorker == |collected|
    }

    ghost predicate Sized()
      reads this
    {
      k <= 24 && pgpEvents.Length == NBuffers(k) && nworkers > 0 && |workerInputQueues| == nworkers
      && readerWorker == |dispatched| && collectorWorker == |collected|
    }

    constructor (k: nat, laneMask: Lanes, nworkers: nat, batchSize: nat)
      requires k <= 24 && laneMask != {} && nworkers > 0
      ensures Valid() && Initial(View()) && fresh(pgpEvents)
      ensures this.k == k && this.laneMask == laneMask && this.nworkers == nworkers && this.batchSize == batchSize
    {
      this.k, this.laneMask, this.nworkers, this.batchSize := k, laneMask, nworkers, batchSize;
      pgpEvents := new Lanes[NBuffers(k)](_ => {});
      workerInputQueues, workerOutputQueues := seq(nworkers, i => []), seq(nworkers, i => []);
      readerWorker, collectorWorker, batchId, teb := 0, 0, 0, [];
      lastComplete, batch, current, i, lastTime := 0, Batch(1, 0), Batch(0, 0), 0, 0.0;
      hand, dispatched, collected := seq(nworkers, i => None), [], [];
      counters, whole, pos, released := [], [], 0, 0;
      new;
      assert pgpEvents[..] == seq(NBuffers(k), i => {});
      InitialInv(View());
    }

    method ResetEventCounter()
      modifies this
      ensures View() == Reset(old(View())) && pgpEvents == old(pgpEvents)
      ensures readerWorker == old(readerWorker) && collectorWorker == old(collectorWorker)
    {
      lastComplete := 0;
      batch := Batch(1, 0);
    }

    method ClearOne(slot: nat)
      requires slot < pgpEvents.Length
      modifies pgpEvents
      ensures pgpEvents[..] == old(pgpEvents[..])[slot := {}]
    {
      pgpEvents[slot] := {};
    }

    /** The repair loop, in the program's 32-bit counter. */
    method RepairJump(evtCounter: nat) returns (broken: nat)
      requires k <= 24 && pgpEvents.Length == NBuffers(k) && lastComplete < COUNTERS && evtCounter < COUNTERS
      modifies pgpEvents
      ensures broken == RepairCount(lastComplete, evtCounter)
      ensures pgpEvents[..] == Clear(k, old(pgpEvents[..]), lastComplete + 1, broken)
    {
      var e := lastComplete + 1;
      broken := 0;
      while e != evtCounter
        invariant e == Counter32(lastComplete, broken)
        invariant broken <= RepairCount(lastComplete, evtCounter)
        invariant pgpEvents[..] == Clear(k, old(pgpEvents[..]), lastComplete + 1, broken)
        decreases RepairCount(lastComplete, evtCounter) - broken
      {
        RepairAdvances(lastComplete, evtCounter, broken);
        Slot32(k, lastComplete + 1 + broken);
        ClearNext(k, old(pgpEvents[..]), lastComplete + 1, broken);
        ClearOne(Slot(k, e));
        e := (e + 1) % WORD32;
        broken := broken + 1;
      }
      RepairAdvances(lastComplete, evtCounter, broken);
    }

    /** One DMA buffer, whatever it holds. A transition other than SlowUpdate sends the
        batch, and so does a pulse id of another window; nothing else does. Where the machine takes it this is its step;
        a buffer that the machine refuses is handled too: the events lose their order. */
    method HandleFrame(f: Frame) returns (thrown: bool)
      requires Sized() && lastComplete < COUNTERS && f.counter < COUNTERS
      modifies this, pgpEvents
      ensures pgpEvents == old(pgpEvents)
      ensures thrown <==> ReadFrame(old(View()), f).None?
      ensures thrown <==> Throws(old(View()), f)
      ensures !thrown ==> FrameOutcome(old(View()), f, View())
      ensures !thrown ==> Sized() && lastComplete < COUNTERS && Some(View()) == ReadFrame(old(View()), f)
      ensures old(Valid()) && !thrown && Step(old(View()), Read(f)).Some? ==>
                Valid() && Some(View()) == Step(old(View()), Read(f))
    {
      ghost var before := View();
      ReadOutcome(before, f);
      thrown := false;
      var slot := Slot(k, f.counter);
      pgpEvents[slot] := pgpEvents[slot] + {f.lane};
      assert pgpEvents[..] == before.masks[slot := before.masks[slot] + {f.lane}];
      if pgpEvents[slot] == laneMask {
        if f.tid.BeginRun? {
          ResetEventCounter();
        }
        if f.counter != Next(lastComplete) && (!f.tid.L1Accept? || !Recent(lastTime, f.time)) {
          thrown := true;
          return;
        }
        AccountEvent(f.counter);
        NoteTime(f.time);
        DispatchBatch(f);
      }
      TakenIsStep(before, f, View());
    }

    method NoteTime(time: real)
      modifies this`lastTime
      ensures View() == old(View()).(lastTime := time)
    {
      lastTime := time;
    }

    /** Count the event, and the broken ones a jump passed over. */
    method AccountEvent(counter: nat)
      requires k <= 24 && pgpEvents.Length == NBuffers(k) && lastComplete < COUNTERS && counter < COUNTERS
      modifies this, pgpEvents
      ensures pgpEvents == old(pgpEvents) && View() == Account(old(View()), counter)
      ensures readerWorker == old(readerWorker) && collectorWorker == old(collectorWorker)
    {
      ghost var consumed := Consumed(lastComplete, counter);
      ConsumedSize(lastComplete, counter);
      var size := batch.size;
      if counter != Next(lastComplete) {
        var broken := RepairJump(counter);
        size := size + broken;
      }
      counters, whole := counters + consumed, whole + LastIsWhole(|consumed|);
      lastComplete := counter;
      batch := batch.(size := (size + 1) % WORD32);
    }

    /** Deal the pending batch to the next worker when it is due. */
    method DispatchBatch(f: Frame)
      requires nworkers > 0 && |workerInputQueues| == nworkers && readerWorker == |dispatched|
      modifies this
      ensures pgpEvents == old(pgpEvents) && View() == Dispatch(old(View()), f)
      ensures readerWorker == |dispatched| && collectorWorker == old(collectorWorker)
    {
      if Flush(batchId, batchSize, f) {
        var w := readerWorker % nworkers;
        workerInputQueues := workerInputQueues[w := workerInputQueues[w] + [batch]];
        dispatched := dispatched + [batch];
        readerWorker := readerWorker + 1;
        batch := Batch(f.counter + 1, 0);
        batchId := f.pulseId;
      }
    }

    /** A worker's pass over one batch: the indices it builds datagrams for. */
    method ProcessBatch(b: Batch) returns (processed: seq<nat>)
      requires pgpEvents.Length == NBuffers(k)
      ensures processed == Unbroken(k, pgpEvents[..], b, b.size)
    {
      processed := [];
      for n := 0 to b.size
        invariant processed == Unbroken(k, pgpEvents[..], b, n)
      {
        var index := Slot(k, b.start + n);
        if pgpEvents[index] != {} {
          processed := processed + [index];
        }
      }
    }

    method TakeBatch()
      requires Valid() && i == current.size && RR.CanCollect(Pipe())
      modifies this
      ensures Valid() && pgpEvents == old(pgpEvents) && Some(View()) == Step(old(View()), Collect)
      ensures |old(collected)| < |dispatched| && current == dispatched[|old(collected)|]
    {
      RR.CollectsNext(Pipe());
      StepKeepsInv(View(), Collect);
      PopBatch();
    }

    method PopBatch()
      requires i == current.size && RR.CanCollect(Pipe()) && collectorWorker == |collected|
      modifies this`workerOutputQueues, this`collected, this`current, this`i, this`collectorWorker
      ensures Some(View()) == Step(old(View()), Collect) && collectorWorker == |collected|
      ensures current == old(workerOutputQueues[|collected| % nworkers][0])
    {
      var w := collectorWorker % nworkers;
      var b := workerOutputQueues[w][0];
      workerOutputQueues := workerOutputQueues[w := workerOutputQueues[w][1..]];
      collected := collected + [b];
      current, i := b, 0;
      collectorWorker := collectorWorker + 1;
    }

    method ExamineBatch()
      requires pgpEvents.Length == NBuffers(k) && i == 0
      modifies this
      ensures pgpEvents == old(pgpEvents)
      ensures readerWorker == old(readerWorker) && collectorWorker == old(collectorWorker)
      ensures View() == Examined(old(View()), old(current.size))
    {
      var sent := ProcessBatch(current);
      teb := teb + sent;
      i, pos := current.size, pos + current.size;
    }

    /** The collector's loop body when nothing interferes: it takes the next batch
        dispatched and sends exactly the indices a worker processes for it. */
    method CollectBatch()
      requires Valid() && i == current.size && RR.CanCollect(Pipe())
      modifies this
      ensures Valid() && pgpEvents == old(pgpEvents)
      ensures |old(collected)| < |dispatched| && current == dispatched[|old(collected)|]
      ensures teb == old(teb) + Unbroken(k, pgpEvents[..], current, current.size)
    {
      TakeBatch();
      ExaminedKeepsInv(View(), current.size);
      ExamineBatch();
    }
  }
}
