/** The workers of psdaq/drp/PGPDetector.cc entry by entry, over the machine of
    PgpDetector: which events were built before the collector sends them. */
module PgpWorkers {
  import opened Runs
  import P = PgpDetector
  import RR = RoundRobin

  type Pipe = RR.State<P.Batch>

  /** progress is how far each worker is in the batch in its hand; built holds the
      places, in the order the counters were consumed, of the events built. */
  datatype State = State(p: P.State, progress: seq<nat>, built: set<nat>)

  /** index says which of the dispatched batches the worker has in hand. */
  datatype Action = Other(a: P.Action) | Build(worker: nat, index: nat)

  /** How many batches were dealt to the same worker before batch i. */
  function Rank(d: seq<P.Batch>, i: nat, n: nat): nat
    requires i <= |d| && n > 0
  {
    |RR.Stripe(d[..i], i % n, n)|
  }

  /** How many batches worker w has finished. */
  function Finished(pipe: Pipe, w: nat): nat
    requires w < pipe.n && |pipe.outQ| == pipe.n
  {
    |RR.Stripe(pipe.collected, w, pipe.n)| + |pipe.outQ[w]|
  }

  /** Where batch i's counters begin among all those consumed. */
  function Offset(d: seq<P.Batch>, i: nat): nat
    requires i <= |d|
  {
    |P.Flatten(d[..i])|
  }

  /** Batch index is the one in worker w's hand. */
  predicate Holds(pipe: Pipe, w: nat, index: nat) {
    && w < pipe.n && |pipe.hand| == |pipe.outQ| == pipe.n && pipe.hand[w].Some?
    && index < |pipe.dispatched| && index % pipe.n == w && Rank(pipe.dispatched, index, pipe.n) == Finished(pipe, w)
  }

  /** A worker's entry: skipped when its mask is zero, otherwise its event is built. */
  function BuildOne(s: State, w: nat, index: nat): State
    requires Holds(s.p.pipe, w, index) && w < |s.progress| && |s.p.masks| == P.NBuffers(s.p.k)
  {
    var b := s.p.pipe.hand[w].value;
    var here := {Offset(s.p.pipe.dispatched, index) + s.progress[w]};
    s.(progress := s.progress[w := s.progress[w] + 1],
       built := if s.p.masks[P.Slot(s.p.k, b.start + s.progress[w])] == {} then s.built else s.built + here)
  }

  function Step(s: State, a: Action): Option<State> {
    match a
    case Build(w, index) =>
      if !Holds(s.p.pipe, w, index) || w >= |s.progress| || |s.p.masks| != P.NBuffers(s.p.k) then None
      else if s.progress[w] >= s.p.pipe.hand[w].value.size then None
      else Some(BuildOne(s, w, index))
    case Other(o) =>
      if P.Step(s.p, o).None? then None
      else if o.Finish? && (o.worker >= |s.progress| || s.progress[o.worker] < s.p.pipe.hand[o.worker].value.size)
        then None
      else if o.Take? && o.worker < |s.progress| then
        Some(s.(p := P.Step(s.p, o).value, progress := s.progress[o.worker := 0]))
      else Some(s.(p := P.Step(s.p, o).value))
  }

  ghost predicate Initial(s: State) {
    P.Initial(s.p) && s.progress == seq(s.p.pipe.n, w => 0) && s.built == {}
  }

  /** The whole events of a batch's first entries were built. */
  ghost predicate BatchBuilt(at: nat, upto: nat, whole: seq<bool>, built: set<nat>) {
    forall x: nat :: at <= x < at + upto ==> PlaceBuilt(x, whole, built)
  }

  ghost predicate PlaceBuilt(x: nat, whole: seq<bool>, built: set<nat>) {
    x < |whole| && (whole[x] ==> x in built)
  }

  ghost predicate IndexBuilt(pipe: Pipe, whole: seq<bool>, progress: seq<nat>, built: set<nat>, i: nat)
    requires RR.WellFormed(pipe) && |progress| == pipe.n && i < |pipe.dispatched|
  {
    var d, w := pipe.dispatched, i % pipe.n;
    && (Rank(d, i, pipe.n) < Finished(pipe, w) ==> BatchBuilt(Offset(d, i), d[i].size, whole, built))
    && (Rank(d, i, pipe.n) == Finished(pipe, w) && pipe.hand[w].Some? ==>
          progress[w] <= d[i].size && BatchBuilt(Offset(d, i), progress[w], whole, built))
  }

  ghost predicate AllBuilt(pipe: Pipe, whole: seq<bool>, progress: seq<nat>, built: set<nat>) {
    && RR.WellFormed(pipe) && |progress| == pipe.n
    && (forall i :: 0 <= i < |pipe.dispatched| ==> IndexBuilt(pipe, whole, progress, built, i))
    && forall x :: x in built ==> x < |whole| && whole[x]
  }

  ghost predicate Inv(s: State) {
    P.Inv(s.p) && AllBuilt(s.p.pipe, s.p.whole, s.progress, s.built)
  }

  /** Later batches of a worker have higher ranks. */
  lemma RanksDiffer(d: seq<P.Batch>, i: nat, j: nat, n: nat)
    requires i < j < |d| && n > 0 && i % n == j % n
    ensures Rank(d, i, n) < Rank(d, j, n)
  {
    RR.StripePrefix(d[..j], i, i % n, n);
    assert d[..j][..i] == d[..i];
  }

  /** The batch of that rank is the one in hand. */
  lemma InHandIs(pipe: Pipe, w: nat, index: nat)
    requires RR.Inv(pipe) && Holds(pipe, w, index)
    ensures pipe.dispatched[index] == pipe.hand[w].value && index >= |pipe.collected|
  {
    var d, n := pipe.dispatched, pipe.n;
    RR.StripePrefix(d, index, w, n);
    var before := RR.Stripe(pipe.collected, w, n);
    assert before + RR.Lane(pipe, w) == RR.Stripe(d, w, n);
    assert (before + RR.Lane(pipe, w))[|before| + |pipe.outQ[w]|] == pipe.hand[w].value;
    if index < |pipe.collected| {
      assert pipe.collected[..index] == d[..index];
      RR.StripePrefix(pipe.collected, index, w, n);
    }
  }

  lemma OffsetNext(d: seq<P.Batch>, i: nat)
    requires i < |d|
    ensures Offset(d, i + 1) == Offset(d, i) + d[i].size
  {
    assert d[..i + 1][..i] == d[..i];
  }

  lemma {:induction false} OffsetGrows(d: seq<P.Batch>, i: nat, j: nat)
    requires i <= j <= |d|
    ensures Offset(d, i) <= Offset(d, j)
    decreases j
  {
    if i < j {
      OffsetGrows(d, i, j - 1);
      OffsetNext(d, j - 1);
    }
  }

  /** Entry j of batch i is the counter at its place. */
  lemma EntryAt(d: seq<P.Batch>, i: nat, j: nat)
    requires i < |d| && j < d[i].size
    ensures Offset(d, i) + j < |P.Flatten(d)| && P.Flatten(d)[Offset(d, i) + j] == P.Expand(d[i])[j]
  {
    assert d[..i + 1][..i] == d[..i];
    P.FlattenPrefix(d[..i + 1], d);
  }

  /** What a worker sees of an event in its hand is whether the event is whole. */
  lemma SeesWhole(s: State, w: nat, index: nat)
    requires Inv(s) && Holds(s.p.pipe, w, index) && s.progress[w] < s.p.pipe.hand[w].value.size
    ensures var x, b := Offset(s.p.pipe.dispatched, index) + s.progress[w], s.p.pipe.hand[w].value;
            && x < |s.p.whole| && (s.p.whole[x] <==> s.p.masks[P.Slot(s.p.k, b.start + s.progress[w])] != {})
  {
    var p, d, b, j := s.p, s.p.pipe.dispatched, s.p.pipe.hand[w].value, s.progress[w];
    var x := Offset(d, index) + j;
    InHandIs(p.pipe, w, index);
    EntryAt(d, index, j);
    P.SameSlot(p.k, b, j);
    OffsetGrows(d, |p.pipe.collected|, index);
    CollectedFirst(p);
    assert p.counters[x] == P.Expand(b)[j];
  }

  lemma CollectedFirst(p: P.State)
    requires P.Inv(p)
    ensures p.released <= p.pos <= Offset(p.pipe.dispatched, |p.pipe.collected|)
  {
    var c := p.pipe.collected;
    assert p.pipe.dispatched[..|c|] == c;
    if c != [] {
      assert P.Flatten(c) == P.Flatten(c[..|c| - 1]) + P.Expand(p.current);
    }
  }

  lemma BatchGrown(at: nat, upto: nat, whole: seq<bool>, whole': seq<bool>, built: set<nat>, built': set<nat>)
    requires BatchBuilt(at, upto, whole, built) && whole <= whole' && built <= built'
    ensures BatchBuilt(at, upto, whole', built')
  {
    forall x: nat | at <= x < at + upto ensures PlaceBuilt(x, whole', built') {
      assert PlaceBuilt(x, whole, built);
    }
  }

  lemma OneMoreBuilt(at: nat, j: nat, whole: seq<bool>, built: set<nat>)
    requires BatchBuilt(at, j, whole, built) && PlaceBuilt(at + j, whole, built)
    ensures BatchBuilt(at, j + 1, whole, built)
  {
  }

  /** More built, and more known to be whole. */
  lemma IndexGrown(pipe: Pipe, whole: seq<bool>, whole': seq<bool>, progress: seq<nat>, built: set<nat>,
                   built': set<nat>, i: nat)
    requires RR.WellFormed(pipe) && |progress| == pipe.n && i < |pipe.dispatched|
    requires IndexBuilt(pipe, whole, progress, built, i) && whole <= whole' && built <= built'
    ensures IndexBuilt(pipe, whole', progress, built', i)
  {
    var d, w := pipe.dispatched, i % pipe.n;
    if Rank(d, i, pipe.n) < Finished(pipe, w) {
      BatchGrown(Offset(d, i), d[i].size, whole, whole', built, built');
    } else if Rank(d, i, pipe.n) == Finished(pipe, w) && pipe.hand[w].Some? {
      BatchGrown(Offset(d, i), progress[w], whole, whole', built, built');
    }
  }

  /** The worker's own batch, an entry further. */
  lemma IndexFurther(pipe: Pipe, whole: seq<bool>, progress: seq<nat>, built: set<nat>, w: nat, i: nat)
    requires RR.Inv(pipe) && |progress| == pipe.n && Holds(pipe, w, i) && progress[w] < pipe.dispatched[i].size
    requires IndexBuilt(pipe, whole, progress, built, i) &&
             PlaceBuilt(Offset(pipe.dispatched, i) + progress[w], whole, built)
    ensures IndexBuilt(pipe, whole, progress[w := progress[w] + 1], built, i)
  {
    OneMoreBuilt(Offset(pipe.dispatched, i), progress[w], whole, built);
  }

  lemma IndexElsewhere(pipe: Pipe, whole: seq<bool>, progress: seq<nat>, built: set<nat>, w: nat, index: nat, i: nat,
                       to: nat)
    requires RR.WellFormed(pipe) && |progress| == pipe.n && Holds(pipe, w, index) && i < |pipe.dispatched| && i != index
    requires IndexBuilt(pipe, whole, progress, built, i)
    ensures IndexBuilt(pipe, whole, progress[w := to], built, i)
  {
    if i % pipe.n == w {
      RanksDiffer(pipe.dispatched, if i < index then i else index, if i < index then index else i, pipe.n);
    }
  }

  lemma BuildInv(s: State, w: nat, index: nat)
    requires Inv(s) && Step(s, Build(w, index)).Some?
    ensures Inv(Step(s, Build(w, index)).value)
  {
    var t, pipe, whole := BuildOne(s, w, index), s.p.pipe, s.p.whole;
    SeesWhole(s, w, index);
    InHandIs(pipe, w, index);
    assert PlaceBuilt(Offset(pipe.dispatched, index) + s.progress[w], whole, t.built);
    forall i | 0 <= i < |pipe.dispatched| ensures IndexBuilt(pipe, whole, t.progress, t.built, i) {
      IndexGrown(pipe, whole, whole, s.progress, s.built, t.built, i);
      if i == index {
        IndexFurther(pipe, whole, s.progress, t.built, w, i);
      } else {
        IndexElsewhere(pipe, whole, s.progress, t.built, w, index, i, s.progress[w] + 1);
      }
    }
  }

  lemma TakeInv(s: State, w: nat)
    requires Inv(s) && Step(s, Other(P.Take(w))).Some?
    ensures Inv(Step(s, Other(P.Take(w))).value)
  {
    P.StepKeepsInv(s.p, P.Take(w));
    var t, pipe := Step(s, Other(P.Take(w))).value, s.p.pipe;
    forall i | 0 <= i < |pipe.dispatched| ensures IndexBuilt(t.p.pipe, t.p.whole, t.progress, t.built, i) {
      assert IndexBuilt(pipe, s.p.whole, s.progress, s.built, i);
    }
  }

  lemma FinishInv(s: State, w: nat)
    requires Inv(s) && Step(s, Other(P.Finish(w))).Some?
    ensures Inv(Step(s, Other(P.Finish(w))).value)
  {
    P.StepKeepsInv(s.p, P.Finish(w));
    var t, pipe := Step(s, Other(P.Finish(w))).value, s.p.pipe;
    forall i | 0 <= i < |pipe.dispatched| ensures IndexBuilt(t.p.pipe, t.p.whole, t.progress, t.built, i) {
      assert IndexBuilt(pipe, s.p.whole, s.progress, s.built, i);
      if Holds(pipe, w, i) {
        InHandIs(pipe, w, i);
      }
    }
  }

  lemma CollectInv(s: State)
    requires Inv(s) && Step(s, Other(P.Collect)).Some?
    ensures Inv(Step(s, Other(P.Collect)).value)
  {
    P.StepKeepsInv(s.p, P.Collect);
    var t, pipe := Step(s, Other(P.Collect)).value, s.p.pipe;
    forall i | 0 <= i < |pipe.dispatched| ensures IndexBuilt(t.p.pipe, t.p.whole, t.progress, t.built, i) {
      var b := pipe.outQ[|pipe.collected| % pipe.n][0];
      RR.StripeAppend(pipe.collected, b, i % pipe.n, pipe.n);
      assert IndexBuilt(pipe, s.p.whole, s.progress, s.built, i);
    }
  }

  /** A batch just dealt is neither finished nor in hand. */
  lemma DealtLast(pipe: Pipe)
    requires RR.Inv(pipe)
    ensures var w := |pipe.dispatched| % pipe.n;
            && Rank(pipe.dispatched, |pipe.dispatched|, pipe.n) >= Finished(pipe, w)
            && (pipe.hand[w].Some? ==> Rank(pipe.dispatched, |pipe.dispatched|, pipe.n) > Finished(pipe, w))
  {
    var d, w := pipe.dispatched, |pipe.dispatched| % pipe.n;
    assert d[..|d|] == d;
    assert RR.Stripe(pipe.collected, w, pipe.n) + RR.Lane(pipe, w) == RR.Stripe(d, w, pipe.n);
  }

  lemma DispatchIndex(pipe: Pipe, b: P.Batch, whole: seq<bool>, progress: seq<nat>, built: set<nat>, i: nat)
    requires RR.Inv(pipe) && |progress| == pipe.n && i < |pipe.dispatched| &&
             IndexBuilt(pipe, whole, progress, built, i)
    ensures IndexBuilt(RR.DispatchTo(pipe, b), whole, progress, built, i)
  {
    var pipe', d := RR.DispatchTo(pipe, b), pipe.dispatched;
    assert pipe'.dispatched[..i] == d[..i] && pipe'.dispatched[i] == d[i];
  }

  lemma DispatchBuilt(pipe: Pipe, b: P.Batch, whole: seq<bool>, progress: seq<nat>, built: set<nat>)
    requires RR.Inv(pipe) && AllBuilt(pipe, whole, progress, built)
    ensures AllBuilt(RR.DispatchTo(pipe, b), whole, progress, built)
  {
    var pipe', d := RR.DispatchTo(pipe, b), pipe.dispatched;
    DealtLast(pipe);
    assert pipe'.dispatched[..|d|] == d && d[..|d|] == d;
    forall i | 0 <= i < |pipe'.dispatched| ensures IndexBuilt(pipe', whole, progress, built, i) {
      if i < |d| {
        DispatchIndex(pipe, b, whole, progress, built, i);
      }
    }
  }

  lemma GrownBuilt(pipe: Pipe, whole: seq<bool>, whole': seq<bool>, progress: seq<nat>, built: set<nat>)
    requires AllBuilt(pipe, whole, progress, built) && whole <= whole'
    ensures AllBuilt(pipe, whole', progress, built)
  {
    forall i | 0 <= i < |pipe.dispatched| ensures IndexBuilt(pipe, whole', progress, built, i) {
      IndexGrown(pipe, whole, whole', progress, built, built, i);
    }
    forall x | x in built ensures x < |whole'| && whole'[x] {
      assert whole'[x] == whole[x];
    }
  }

  lemma ReadExtends(p: P.State, f: P.Frame)
    requires P.Step(p, P.Read(f)).Some?
    ensures var t := P.Step(p, P.Read(f)).value;
            p.whole <= t.whole && (t.pipe == p.pipe || exists b :: t.pipe == RR.DispatchTo(p.pipe, b))
  {
  }

  lemma ReadInv(s: State, f: P.Frame)
    requires Inv(s) && Step(s, Other(P.Read(f))).Some?
    ensures Inv(Step(s, Other(P.Read(f))).value)
  {
    P.StepKeepsInv(s.p, P.Read(f));
    ReadExtends(s.p, f);
    var t := P.Step(s.p, P.Read(f)).value;
    GrownBuilt(s.p.pipe, s.p.whole, t.whole, s.progress, s.built);
    if t.pipe != s.p.pipe {
      var b :| t.pipe == RR.DispatchTo(s.p.pipe, b);
      DispatchBuilt(s.p.pipe, b, t.whole, s.progress, s.built);
    }
  }

  lemma StepKeepsInv(s: State, a: Action)
    requires Inv(s) && Step(s, a).Some?
    ensures Inv(Step(s, a).value)
  {
    match a
    case Build(w, index) => BuildInv(s, w, index);
    case Other(Read(f)) => ReadInv(s, f);
    case Other(Take(w)) => TakeInv(s, w);
    case Other(Finish(w)) => FinishInv(s, w);
    case Other(Collect) => CollectInv(s);
    case Other(o) => P.StepKeepsInv(s.p, o);
  }

  lemma Reachable(s0: State, acts: seq<Action>)
    requires Initial(s0)
    ensures Exec(Step, s0, acts).Some? ==> Inv(Exec(Step, s0, acts).value)
  {
    P.InitialInv(s0.p);
    forall s: State, a: Action {:trigger Step(s, a)} | Inv(s) && Step(s, a).Some? ensures Inv(Step(s, a).value) {
      StepKeepsInv(s, a);
    }
    Invariant(Step, Inv, s0, acts);
  }

  /** Which batch a place is in. */
  lemma {:induction false} BatchOf(d: seq<P.Batch>, x: nat) returns (i: nat)
    requires x < Offset(d, |d|)
    ensures i < |d| && Offset(d, i) <= x < Offset(d, i) + d[i].size
  {
    var n := |d| - 1;
    OffsetNext(d, n);
    if x >= Offset(d, n) {
      i := n;
    } else {
      assert forall j :: 0 <= j <= n ==> d[..n][..j] == d[..j];
      i := BatchOf(d[..n], x);
    }
  }

  /** Collected batches are finished ones. */
  lemma CollectedIsFinished(pipe: Pipe, i: nat)
    requires RR.Inv(pipe) && i < |pipe.collected|
    ensures Rank(pipe.dispatched, i, pipe.n) < Finished(pipe, i % pipe.n)
  {
    RR.StripePrefix(pipe.collected, i, i % pipe.n, pipe.n);
    assert pipe.collected[..i] == pipe.dispatched[..i];
  }

  /** For every schedule of the reader, of the workers' entries, of the collector and of
      buffer release: an event sent to the TEB was built by a worker before, and only
      whole events are built. */
  lemma BuiltBeforeSent(s0: State, acts: seq<Action>)
    requires Initial(s0)
    ensures var r := Exec(Step, s0, acts);
            r.Some? ==>
              var s := r.value;
              && s.p.pos <= |s.p.counters| == |s.p.whole|
              && s.p.teb == P.Indices(s.p.k, s.p.counters[..s.p.pos], s.p.whole[..s.p.pos])
              && (forall x :: 0 <= x < s.p.pos && s.p.whole[x] ==> x in s.built)
              && (forall x :: x in s.built ==> x < |s.p.whole| && s.p.whole[x])
  {
    Reachable(s0, acts);
    var r := Exec(Step, s0, acts);
    if r.Some? {
      var s := r.value;
      forall x | 0 <= x < s.p.pos && s.p.whole[x] ensures x in s.built {
        SentIsBuilt(s, x);
      }
    }
  }

  lemma SentIsBuilt(s: State, x: nat)
    requires Inv(s) && x < s.p.pos && x < |s.p.whole| && s.p.whole[x]
    ensures x in s.built
  {
    var pipe := s.p.pipe;
    var c := |pipe.collected|;
    CollectedFirst(s.p);
    assert pipe.dispatched[..c] == pipe.collected && pipe.collected[..c] == pipe.collected;
    var i := BatchOf(pipe.collected, x);
    assert pipe.collected[..i] == pipe.dispatched[..i];
    CollectedIsFinished(pipe, i);
    assert IndexBuilt(pipe, s.p.whole, s.progress, s.built, i);
    assert PlaceBuilt(x, s.p.whole, s.built);
  }

  lemma {:induction false} RankOf(d: seq<P.Batch>, w: nat, n: nat, m: nat) returns (i: nat)
    requires n > 0 && w < n && m < |RR.Stripe(d, w, n)|
    ensures i < |d| && i % n == w && |RR.Stripe(d[..i], w, n)| == m
  {
    var rest := d[..|d| - 1];
    if m < |RR.Stripe(rest, w, n)| {
      i := RankOf(rest, w, n, m);
      assert rest[..i] == d[..i];
    } else {
      i := |d| - 1;
    }
  }

  /** A worker with a batch in hand can go on: an entry, or handing the batch over. */
  lemma WorkerCanStep(s0: State, acts: seq<Action>, w: nat) returns (a: Action)
    requires Initial(s0) && Exec(Step, s0, acts).Some?
    requires var s := Exec(Step, s0, acts).value; w < |s.p.pipe.hand| && s.p.pipe.hand[w].Some?
    ensures Step(Exec(Step, s0, acts).value, a).Some? && (a.Build? || a == Other(P.Finish(w)))
  {
    Reachable(s0, acts);
    var s := Exec(Step, s0, acts).value;
    var pipe := s.p.pipe;
    if s.progress[w] < pipe.hand[w].value.size {
      assert RR.Stripe(pipe.collected, w, pipe.n) + RR.Lane(pipe, w) == RR.Stripe(pipe.dispatched, w, pipe.n);
      var index := RankOf(pipe.dispatched, w, pipe.n, Finished(pipe, w));
      a := Build(w, index);
    } else {
      a := Other(P.Finish(w));
    }
  }
}
