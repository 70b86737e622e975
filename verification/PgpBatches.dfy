/** What the batches of psdaq/drp/PGPDetector.cc hold, over the machine of PgpDetector. */
module PgpBatches {
  import opened Runs
  import P = PgpDetector
  import RR = RoundRobin

  /** frames gives, for each counter consumed, the frame that completed its event, if one
      did; ids gives the pulse id that each batch sent was judged against. */
  datatype State = State(p: P.State, frames: seq<Option<P.Frame>>, ids: seq<nat>)

  function Skipped(n: nat): (r: seq<Option<P.Frame>>)
    ensures |r| == n && forall i :: 0 <= i < n ==> r[i] == None
  {
    seq(n, _ => None)
  }

  function Step(s: State, a: P.Action): Option<State> {
    match P.Step(s.p, a)
    case None => None
    case Some(t) =>
      var more := |t.counters| - |s.p.counters|;
      Some(State(t,
                 if a.Read? && more > 0 then s.frames + Skipped(more - 1) + [Some(a.f)] else s.frames,
                 if |t.pipe.dispatched| > |s.p.pipe.dispatched| then s.ids + [s.p.batchId] else s.ids))
  }

  /** Where batch i's counters begin among all those consumed. */
  function Start(d: seq<P.Batch>, i: nat): nat
    requires i <= |d|
  {
    |P.Flatten(d[..i])|
  }

  ghost predicate Ordinary(f: P.Frame, id: nat, batchSize: nat)
    requires batchSize > 0
  {
    (f.tid == P.L1Accept || f.tid == P.SlowUpdate) && P.Window(f.pulseId, batchSize) == P.Window(id, batchSize)
  }

  /** The whole events from one place to another are L1Accepts and SlowUpdates of the
      window of that pulse id. */
  ghost predicate OneWindow(frames: seq<Option<P.Frame>>, lo: nat, hi: nat, id: nat, batchSize: nat)
    requires batchSize > 0
  {
    forall x: nat :: lo <= x < hi ==> PlaceOk(frames, x, id, batchSize)
  }

  ghost predicate PlaceOk(frames: seq<Option<P.Frame>>, x: nat, id: nat, batchSize: nat)
    requires batchSize > 0
  {
    x < |frames| && (frames[x].Some? ==> Ordinary(frames[x].value, id, batchSize))
  }

  ghost predicate BatchOk(frames: seq<Option<P.Frame>>, ids: seq<nat>, d: seq<P.Batch>, i: nat, batchSize: nat)
    requires batchSize > 0
  {
    i < |d| && i < |ids| && d[i].size > 0 &&
      OneWindow(frames, Start(d, i), Start(d, i) + d[i].size - 1, ids[i], batchSize)
  }

  ghost predicate AllOk(frames: seq<Option<P.Frame>>, ids: seq<nat>, d: seq<P.Batch>, pending: nat, id: nat,
                        batchSize: nat)
    requires batchSize > 0
  {
    && |ids| == |d| && pending <= |frames|
    && OneWindow(frames, |frames| - pending, |frames|, id, batchSize)
    && forall i :: 0 <= i < |d| ==> BatchOk(frames, ids, d, i, batchSize)
  }

  ghost predicate Traces(frames: seq<Option<P.Frame>>, whole: seq<bool>) {
    |frames| == |whole| && forall x :: 0 <= x < |frames| ==> (frames[x].Some? <==> whole[x])
  }

  ghost predicate Inv(s: State) {
    && P.Inv(s.p) && P.SizeOk(s.p.batchSize) && |s.frames| == |s.p.counters| && Traces(s.frames, s.p.whole)
    && AllOk(s.frames, s.ids, s.p.pipe.dispatched, s.p.batch.size, s.p.batchId, s.p.batchSize)
  }

  lemma StartNext(d: seq<P.Batch>, b: P.Batch)
    ensures Start(d + [b], |d|) == |P.Flatten(d)|
    ensures forall i :: 0 <= i <= |d| ==> Start(d + [b], i) == Start(d, i)
  {
    assert (d + [b])[..|d|] == d && d[..|d|] == d;
    forall i | 0 <= i <= |d| ensures Start(d + [b], i) == Start(d, i) {
      assert (d + [b])[..i] == d[..i];
    }
  }

  lemma WindowGrows(frames: seq<Option<P.Frame>>, more: seq<Option<P.Frame>>, lo: nat, hi: nat, id: nat, batchSize: nat)
    requires batchSize > 0 && OneWindow(frames, lo, hi, id, batchSize)
    ensures OneWindow(frames + more, lo, hi, id, batchSize)
  {
    forall x: nat | lo <= x < hi ensures PlaceOk(frames + more, x, id, batchSize) {
      assert PlaceOk(frames, x, id, batchSize);
    }
  }

  /** The batches sent before stay as they are. */
  lemma OldBatches(frames: seq<Option<P.Frame>>, more: seq<Option<P.Frame>>, ids: seq<nat>, id: nat, d: seq<P.Batch>,
                   b: P.Batch, i: nat, batchSize: nat)
    requires batchSize > 0 && i < |d| == |ids| && BatchOk(frames, ids, d, i, batchSize)
    ensures BatchOk(frames + more, ids, d, i, batchSize) && BatchOk(frames + more, ids + [id], d + [b], i, batchSize)
  {
    StartNext(d, b);
    WindowGrows(frames, more, Start(d, i), Start(d, i) + d[i].size - 1, ids[i], batchSize);
  }

  /** The pending events with those skipped over, and the new one if it is ordinary. */
  lemma PendingGrows(frames: seq<Option<P.Frame>>, pending: nat, n: nat, f: P.Frame, id: nat, batchSize: nat)
    requires batchSize > 0 && pending <= |frames| && OneWindow(frames, |frames| - pending, |frames|, id, batchSize)
    ensures var all := frames + Skipped(n) + [Some(f)];
            && OneWindow(all, |frames| - pending, |all| - 1, id, batchSize)
            && (Ordinary(f, id, batchSize) ==> OneWindow(all, |frames| - pending, |all|, id, batchSize))
  {
    var all := frames + Skipped(n) + [Some(f)];
    forall x: nat | |frames| - pending <= x < |all| - 1 ensures PlaceOk(all, x, id, batchSize) {
      if x < |frames| {
        assert PlaceOk(frames, x, id, batchSize) && all[x] == frames[x];
      }
    }
  }

  lemma CountersGrow(s: P.State, f: P.Frame)
    requires P.Inv(s) && P.Step(s, P.Read(f)).Some? && P.Completes(s, f)
    ensures var t, c := P.Step(s, P.Read(f)).value, |P.Step(s, P.Read(f)).value.counters| - |s.counters|;
            c > 0 && t.batchSize == s.batchSize && t.whole == s.whole + P.LastIsWhole(c)
  {
    P.ConsumedSize(if f.tid == P.BeginRun then 0 else s.lastComplete, f.counter);
  }

  /** What a completing frame does to counters and batches. */
  lemma CompletingFacts(s: P.State, f: P.Frame)
    requires P.Inv(s) && P.SizeOk(s.batchSize) && P.Step(s, P.Read(f)).Some? && P.Completes(s, f)
    ensures var t, c := P.Step(s, P.Read(f)).value, |P.Step(s, P.Read(f)).value.counters| - |s.counters|;
            && P.Inv(t) && c > 0 && t.batchSize == s.batchSize && t.whole == s.whole + P.LastIsWhole(c)
            && var b := P.Pending(if f.tid == P.BeginRun then P.Batch(1, 0) else s.batch,
                                  if f.tid == P.BeginRun then 0 else s.lastComplete, f.counter);
               P.BatchOutcome(b, s.batchId, s.batchSize, f, s.pipe, t)
  {
    P.StepKeepsInv(s, P.Read(f));
    P.ReadOutcome(s, f);
    CountersGrow(s, f);
  }

  lemma SizesAdd(s: P.State, t: P.State, b: P.Batch)
    requires P.Inv(s) && P.Inv(t)
    ensures |s.counters| == |P.Flatten(s.pipe.dispatched)| + s.batch.size
    ensures t.pipe.dispatched == s.pipe.dispatched ==> t.batch.size == s.batch.size + |t.counters| - |s.counters|
    ensures t.pipe.dispatched == s.pipe.dispatched + [b] && t.batch.size == 0 ==>
              b.size == s.batch.size + |t.counters| - |s.counters|
  {
    P.FlattenAppend(s.pipe.dispatched, b);
  }

  /** The batch is kept. */
  lemma KeptOk(frames: seq<Option<P.Frame>>, more: seq<Option<P.Frame>>, ids: seq<nat>, d: seq<P.Batch>, pending: nat,
               id: nat, batchSize: nat)
    requires batchSize > 0 && AllOk(frames, ids, d, pending, id, batchSize)
    requires OneWindow(frames + more, |frames| - pending, |frames| + |more|, id, batchSize)
    ensures AllOk(frames + more, ids, d, pending + |more|, id, batchSize)
  {
    forall i | 0 <= i < |d| ensures BatchOk(frames + more, ids, d, i, batchSize) {
      OldBatches(frames, more, ids, id, d, P.Batch(0, 0), i, batchSize);
    }
  }

  /** The batch is sent. */
  lemma SentOk(frames: seq<Option<P.Frame>>, more: seq<Option<P.Frame>>, ids: seq<nat>, d: seq<P.Batch>, b: P.Batch,
               pending: nat, id: nat, next: nat, batchSize: nat)
    requires batchSize > 0 && AllOk(frames, ids, d, pending, id, batchSize)
    requires b.size == pending + |more| && |more| > 0 && |frames| == |P.Flatten(d)| + pending
    requires OneWindow(frames + more, |frames| - pending, |frames| + |more| - 1, id, batchSize)
    ensures AllOk(frames + more, ids + [id], d + [b], 0, next, batchSize)
  {
    StartNext(d, b);
    forall i | 0 <= i < |d + [b]| ensures BatchOk(frames + more, ids + [id], d + [b], i, batchSize) {
      if i < |d| {
        OldBatches(frames, more, ids, id, d, b, i, batchSize);
      }
    }
  }

  /** A completing frame in terms of the trace. */
  lemma CompletingTrace(s: State, f: P.Frame) returns (c: nat, b: P.Batch)
    requires Inv(s) && Step(s, P.Read(f)).Some? && P.Completes(s.p, f)
    ensures var t, d := Step(s, P.Read(f)).value, s.p.pipe.dispatched;
            && c > 0 && t.frames == s.frames + (Skipped(c - 1) + [Some(f)])
            && |s.frames| == |P.Flatten(d)| + s.p.batch.size
            && if t.p.pipe.dispatched == d then
                 && t.ids == s.ids && t.p.batch.size == s.p.batch.size + c && t.p.batchId == s.p.batchId
                 && Ordinary(f, s.p.batchId, s.p.batchSize)
               else
                 && t.p.pipe.dispatched == d + [b] && t.ids == s.ids + [s.p.batchId] && t.p.batch.size == 0
                 && b.size == s.p.batch.size + c
  {
    CompletingFacts(s.p, f);
    var t := Step(s, P.Read(f)).value;
    c := |t.p.counters| - |s.p.counters|;
    b := P.Pending(if f.tid == P.BeginRun then P.Batch(1, 0) else s.p.batch,
                   if f.tid == P.BeginRun then 0 else s.p.lastComplete, f.counter);
    SizesAdd(s.p, t.p, b);
    assert s.frames + Skipped(c - 1) + [Some(f)] == s.frames + (Skipped(c - 1) + [Some(f)]);
  }

  lemma AddedOk(frames: seq<Option<P.Frame>>, c: nat, f: P.Frame, ids: seq<nat>, d: seq<P.Batch>, b: P.Batch,
                pending: nat, id: nat, next: nat, batchSize: nat)
    requires batchSize > 0 && c > 0 && AllOk(frames, ids, d, pending, id, batchSize) &&
             |frames| == |P.Flatten(d)| + pending
    ensures var all := frames + (Skipped(c - 1) + [Some(f)]);
            && (Ordinary(f, id, batchSize) ==> AllOk(all, ids, d, pending + c, id, batchSize))
            && (b.size == pending + c ==> AllOk(all, ids + [id], d + [b], 0, next, batchSize))
  {
    var more := Skipped(c - 1) + [Some(f)];
    PendingGrows(frames, pending, c - 1, f, id, batchSize);
    assert frames + Skipped(c - 1) + [Some(f)] == frames + more;
    if Ordinary(f, id, batchSize) {
      KeptOk(frames, more, ids, d, pending, id, batchSize);
    }
    if b.size == pending + c {
      SentOk(frames, more, ids, d, b, pending, id, next, batchSize);
    }
  }

  lemma CompletingOk(s: State, f: P.Frame)
    requires Inv(s) && Step(s, P.Read(f)).Some? && P.Completes(s.p, f)
    ensures var t := Step(s, P.Read(f)).value;
            AllOk(t.frames, t.ids, t.p.pipe.dispatched, t.p.batch.size, t.p.batchId, s.p.batchSize)
  {
    var c, b := CompletingTrace(s, f);
    var t := Step(s, P.Read(f)).value;
    AddedOk(s.frames, c, f, s.ids, s.p.pipe.dispatched, b, s.p.batch.size, s.p.batchId, t.p.batchId, s.p.batchSize);
  }

  lemma CompletingInv(s: State, f: P.Frame)
    requires Inv(s) && Step(s, P.Read(f)).Some? && P.Completes(s.p, f)
    ensures Inv(Step(s, P.Read(f)).value)
  {
    CompletingFacts(s.p, f);
    CompletingOk(s, f);
    TraceGrows(s.frames, s.p.whole, |P.Step(s.p, P.Read(f)).value.counters| - |s.p.counters|, f);
  }

  lemma TraceGrows(frames: seq<Option<P.Frame>>, whole: seq<bool>, c: nat, f: P.Frame)
    requires Traces(frames, whole) && c > 0
    ensures Traces(frames + Skipped(c - 1) + [Some(f)], whole + P.LastIsWhole(c))
  {
  }

  lemma StepKeepsInv(s: State, a: P.Action)
    requires Inv(s) && Step(s, a).Some?
    ensures Inv(Step(s, a).value)
  {
    if a.Read? && P.Completes(s.p, a.f) {
      CompletingInv(s, a.f);
    } else {
      P.StepKeepsInv(s.p, a);
      OtherFacts(s.p, a);
    }
  }

  lemma OtherFacts(s: P.State, a: P.Action)
    requires P.Step(s, a).Some? && |s.masks| == P.NBuffers(s.k) && (a.Read? ==> !P.Completes(s, a.f))
    ensures var t := P.Step(s, a).value;
            && t.counters == s.counters && t.whole == s.whole && t.batch == s.batch && t.batchId == s.batchId
            && t.batchSize == s.batchSize && t.pipe.dispatched == s.pipe.dispatched
  {
  }

  ghost predicate Initial(s: State) {
    P.Initial(s.p) && P.SizeOk(s.p.batchSize) && s.frames == [] && s.ids == []
  }

  /** In every run of reader, workers, collector and release: the whole events of the
      pending batch are L1Accepts and SlowUpdates of one pulse id window, and so are those
      of each batch sent but its last; so every other transition ends its batch. */
  lemma BatchesByWindow(s0: State, acts: seq<P.Action>)
    requires Initial(s0)
    ensures var r := Exec(Step, s0, acts);
            r.Some? ==>
              var s := r.value;
              && P.SizeOk(s.p.batchSize) && |s.frames| == |s.p.counters| && Traces(s.frames, s.p.whole)
              && AllOk(s.frames, s.ids, s.p.pipe.dispatched, s.p.batch.size, s.p.batchId, s.p.batchSize)
  {
    P.InitialInv(s0.p);
    forall s: State, a: P.Action {:trigger Step(s, a)} | Inv(s) && Step(s, a).Some? ensures Inv(Step(s, a).value) {
      StepKeepsInv(s, a);
    }
    Invariant(Step, Inv, s0, acts);
  }
}
