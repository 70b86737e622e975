/** The timestamp join of psdaq/drp/PvaDetector.cc: a worker thread pairs the
    datagrams read from PGP with PV updates delivered by a second thread. */
module PvaDetector {
  import opened Runs

  /** TimeStamp::value(): seconds in the high word, nanoseconds in the low one. */
  type Time = nat
  type Payload = seq<nat>

  const TIME_MAX: Time := 0xffff_ffff_ffff_ffff

  datatype Service = L1Accept | SlowUpdate | Enable | Disable | OtherTransition

  datatype DamageFlag = Truncated | MissingData | TimedOut

  /** A datagram in the pebble: header, damage bits and accumulated payload. */
  datatype Dgram = Dgram(index: nat, time: Time, service: Service, damage: set<DamageFlag>, payload: Payload)

  /** What a PV update carries, and the same together with the buffer holding it. */
  datatype PvData = PvData(time: Time, damage: set<DamageFlag>, payload: Payload)
  datatype Pv = Pv(buffer: nat, data: PvData)

  /** The PV buffer between its pop from the freelist and its push on the queue. */
  datatype Filling = Filling(buffer: nat, time: Time)

  /** How a datagram left for the TEB. */
  datatype Fate = ByMatch | ByTimeout | Directly

  /** room is the payload space of a pebble buffer. pvs, arrivals and fates are
      histories: the PVs queued, the PGP datagrams read, and how each was sent. */
  datatype State = State(
    room: nat, running: bool,
    freelist: seq<nat>, filling: Option<Filling>, pvQueue: seq<Pv>,
    pgpQueue: seq<Dgram>, teb: seq<Dgram>,
    nUpdates: nat, nMissed: nat, nMatch: nat, nEmpty: nat, nTooOld: nat, nTimedOut: nat,
    pvs: seq<PvData>, arrivals: seq<Dgram>, fates: seq<Fate>)

  datatype Action =
    | PvBegin(time: Time)       // process() up to the freelist pop
    | PvFinish(data: Payload)   // event() and the push on the PV queue
    | Arrive(index: nat, time: Time, service: Service)
    | MatchOne                  // one iteration of _matchUp
    | Timeout(threshold: Time)  // all of _timeout
    | Transition(index: nat, time: Time, service: Service)

  /** _compare at match degree 2. */
  function Compare(ts1: Time, ts2: Time): int {
    if ts1 > ts2 then 1 else if ts2 > ts1 then -1 else 0
  }

  predicate Queued(s: Service) {
    s.L1Accept? || s.SlowUpdate?
  }

  function Fresh(index: nat, time: Time, service: Service): Dgram {
    Dgram(index, time, service, {}, [])
  }

  function Raw(d: Dgram): Dgram {
    Fresh(d.index, d.time, d.service)
  }

  function Damaged(d: Dgram, f: DamageFlag): Dgram {
    if d.service.L1Accept? then d.(damage := d.damage + {f}) else d
  }

  function Filled(d: Dgram, pv: PvData): Dgram {
    if d.service.L1Accept? then d.(damage := d.damage + pv.damage, payload := d.payload + pv.payload) else d
  }

  function One(d: Dgram): nat {
    if d.service.L1Accept? then 1 else 0
  }

  function Send(s: State, d: Dgram, fate: Fate): State {
    s.(teb := s.teb + [d], fates := s.fates + [fate])
  }

  /** Drop the front of the PV queue and recycle its buffer. */
  function RecyclePv(s: State): State
    requires s.pvQueue != []
  {
    s.(pvQueue := s.pvQueue[1..], freelist := s.freelist + [s.pvQueue[0].buffer])
  }

  function HandleMatch(s: State): State
    requires s.pvQueue != [] && s.pgpQueue != []
  {
    var d := s.pgpQueue[0];
    var t := RecyclePv(s);
    Send(t.(pgpQueue := s.pgpQueue[1..], nMatch := s.nMatch + One(d)), Filled(d, s.pvQueue[0].data), ByMatch)
  }

  function HandleYounger(s: State): State
    requires s.pgpQueue != []
  {
    var d := s.pgpQueue[0];
    Send(s.(pgpQueue := s.pgpQueue[1..], nEmpty := s.nEmpty + One(d)), Damaged(d, MissingData), ByMatch)
  }

  function HandleOlder(s: State): State
    requires s.pvQueue != [] && s.pgpQueue != []
  {
    RecyclePv(s.(nTooOld := s.nTooOld + One(s.pgpQueue[0])))
  }

  function MatchStep(s: State): State
    requires s.pvQueue != [] && s.pgpQueue != []
  {
    var c := Compare(s.pvQueue[0].data.time, s.pgpQueue[0].time);
    if c == 0 then HandleMatch(s) else if c > 0 then HandleYounger(s) else HandleOlder(s)
  }

  predicate Quiet(s: State) {
    s.pvQueue == [] || s.pgpQueue == []
  }

  /** _matchUp with no PV arriving meanwhile. */
  function MatchAll(s: State): State
    decreases |s.pvQueue| + |s.pgpQueue|
  {
    if Quiet(s) then s else MatchAll(MatchStep(s))
  }

  function ExpireOne(s: State): State
    requires s.pgpQueue != []
  {
    var d := s.pgpQueue[0];
    Send(s.(pgpQueue := s.pgpQueue[1..], nTimedOut := s.nTimedOut + One(d)), Damaged(d, TimedOut), ByTimeout)
  }

  /** _timeout: send everything not newer than the threshold. The loop touches
      nothing the PV thread touches, so it is one step. */
  function ExpireAll(s: State, threshold: Time): State
    decreases |s.pgpQueue|
  {
    if s.pgpQueue == [] || s.pgpQueue[0].time > threshold then s
    else ExpireAll(ExpireOne(s), threshold)
  }

  function Truncate(room: nat, time: Time, data: Payload): PvData {
    if |data| > room then PvData(time, {Truncated}, data[..room]) else PvData(time, {}, data)
  }

  function BeginUpdate(s: State, time: Time): State {
    if !s.running then s
    else if s.freelist == [] then s.(nUpdates := s.nUpdates + 1, nMissed := s.nMissed + 1)
    else s.(nUpdates := s.nUpdates + 1, filling := Some(Filling(s.freelist[0], time)), freelist := s.freelist[1..])
  }

  function FinishUpdate(s: State, data: Payload): State
    requires s.filling.Some?
  {
    var pv := Truncate(s.room, s.filling.value.time, data);
    s.(filling := None, pvQueue := s.pvQueue + [Pv(s.filling.value.buffer, pv)], pvs := s.pvs + [pv])
  }

  function PushPgp(s: State, d: Dgram): State {
    s.(pgpQueue := s.pgpQueue + [d], arrivals := s.arrivals + [d])
  }

  /** A transition other than SlowUpdate is sent at once, after the sweep a Disable makes. */
  function SendTransition(s: State, d: Dgram): State {
    var t := if d.service.Enable? then s.(running := true)
             else if d.service.Disable? then ExpireAll(s.(running := false), TIME_MAX)
             else s;
    Send(t.(arrivals := t.arrivals + [d]), d, Directly)
  }

  predicate NewestPv(s: State, time: Time) {
    && (s.pvs != [] ==> s.pvs[|s.pvs| - 1].time < time)
    && (s.filling.Some? ==> s.filling.value.time < time)
  }

  predicate NewestPgp(s: State, time: Time) {
    LastTime(s.arrivals) < time
  }

  /** The newest timestamp read from PGP; -1 before the first. */
  function LastTime(ds: seq<Dgram>): int {
    if ds == [] then -1 else ds[|ds| - 1].time
  }

  /** Both streams have strictly increasing timestamps; L1Accept and SlowUpdate
      come only between Enable and Disable, and other transitions only outside. */
  function Step(s: State, a: Action): Option<State> {
    match a
    case PvBegin(time) =>
      if s.filling.Some? || !NewestPv(s, time) then None else Some(BeginUpdate(s, time))
    case PvFinish(data) =>
      if s.filling.None? then None else Some(FinishUpdate(s, data))
    case Arrive(index, time, service) =>
      if !s.running || !Queued(service) || !NewestPgp(s, time) || time > TIME_MAX then None
      else Some(PushPgp(s, Fresh(index, time, service)))
    case MatchOne =>
      if Quiet(s) then None else Some(MatchStep(s))
    case Timeout(threshold) => Some(ExpireAll(s, threshold))
    case Transition(index, time, service) =>
      if Queued(service) || !NewestPgp(s, time) || s.running != service.Disable? then None
      else Some(SendTransition(s, Fresh(index, time, service)))
  }

  /** nbuffers PV buffers, all free, as configure() leaves them. */
  ghost predicate Initial(s: State, nbuffers: nat) {
    && s.freelist == seq(nbuffers, i => i)
    && s.filling == None && s.pvQueue == [] && s.pgpQueue == [] && s.teb == []
    && !s.running && s.nUpdates == s.nMissed == s.nMatch == s.nEmpty == s.nTooOld == s.nTimedOut == 0
    && s.pvs == [] && s.arrivals == [] && s.fates == []
  }

  /** The PV stamped t, if one was queued. */
  function Lookup(pvs: seq<PvData>, t: Time): (r: Option<PvData>)
    ensures r.Some? ==> r.value in pvs && r.value.time == t
    ensures r.None? ==> forall i :: 0 <= i < |pvs| ==> pvs[i].time != t
  {
    if pvs == [] then None
    else if pvs[0].time == t then Some(pvs[0]) else Lookup(pvs[1..], t)
  }

  /** What the join should make of a datagram, from the PV stream alone. */
  function Joined(d: Dgram, pvs: seq<PvData>): Dgram {
    match Lookup(pvs, d.time)
    case Some(pv) => Filled(d, pv)
    case None => Damaged(d, MissingData)
  }

  /** No PV still to come can be stamped as early as d. */
  ghost predicate Decided(d: Dgram, pvs: seq<PvData>) {
    !Queued(d.service) || exists i :: 0 <= i < |pvs| && pvs[i].time >= d.time
  }

  ghost predicate Sorted(pvs: seq<PvData>) {
    forall i, j :: 0 <= i < j < |pvs| ==> pvs[i].time < pvs[j].time
  }

  ghost predicate SortedD(ds: seq<Dgram>) {
    forall i, j :: 0 <= i < j < |ds| ==> ds[i].time < ds[j].time
  }

  /** What a datagram looks like when sent with a given fate. */
  ghost predicate Settled(raw: Dgram, sent: Dgram, fate: Fate, pvs: seq<PvData>) {
    match fate
    case ByMatch => Queued(raw.service) && Decided(raw, pvs) && sent == Joined(raw, pvs)
    case ByTimeout => Queued(raw.service) && sent == Damaged(raw, TimedOut)
    case Directly => !Queued(raw.service) && sent == raw
  }

  lemma LookupUnique(pvs: seq<PvData>, i: nat)
    requires Sorted(pvs) && i < |pvs|
    ensures Lookup(pvs, pvs[i].time) == Some(pvs[i])
  {
    if i > 0 {
      LookupUnique(pvs[1..], i - 1);
    }
  }

  lemma LookupAbsent(pvs: seq<PvData>, t: Time)
    requires forall i :: 0 <= i < |pvs| ==> pvs[i].time != t
    ensures Lookup(pvs, t) == None
  {
  }

  /** A decided outcome does not change as more PVs are queued. */
  lemma DecidedIsStable(d: Dgram, pvs: seq<PvData>, more: seq<PvData>)
    requires Sorted(pvs + more) && Decided(d, pvs)
    ensures Decided(d, pvs + more)
    ensures Queued(d.service) ==> Joined(d, pvs + more) == Joined(d, pvs)
  {
    if Queued(d.service) {
      var all := pvs + more;
      var i :| 0 <= i < |pvs| && pvs[i].time >= d.time;
      assert all[i].time >= d.time;
      match Lookup(pvs, d.time)
      case Some(pv) =>
        var j :| 0 <= j < |pvs| && pvs[j] == pv;
        assert all[j] == pv;
        LookupUnique(all, j);
      case None =>
        forall j | 0 <= j < |all| ensures all[j].time != d.time {
          if j < |pvs| {
            assert all[j] == pvs[j];
          } else {
            assert all[i].time < all[j].time;
          }
        }
        LookupAbsent(all, d.time);
    }
  }

  function Buffers(q: seq<Pv>): (b: seq<nat>)
    ensures |b| == |q|
  {
    seq(|q|, i requires 0 <= i < |q| => q[i].buffer)
  }

  function Datas(q: seq<Pv>): (d: seq<PvData>)
    ensures |d| == |q|
  {
    seq(|q|, i requires 0 <= i < |q| => q[i].data)
  }

  function InHand(filling: Option<Filling>): seq<nat> {
    if filling.Some? then [filling.value.buffer] else []
  }

  /** Every PV buffer is free, queued, or the one being filled, and only once. */
  ghost predicate BuffersPartitioned(freelist: seq<nat>, pvQueue: seq<Pv>, filling: Option<Filling>, nbuffers: nat) {
    multiset(freelist) + multiset(Buffers(pvQueue)) + multiset(InHand(filling)) == multiset(seq(nbuffers, i => i))
  }

  function CountL1(ds: seq<Dgram>): nat {
    if ds == [] then 0 else CountL1(ds[..|ds| - 1]) + One(ds[|ds| - 1])
  }

  lemma CountL1Head(ds: seq<Dgram>)
    requires ds != []
    ensures CountL1(ds) == One(ds[0]) + CountL1(ds[1..])
  {
    if |ds| > 1 {
      CountL1Head(ds[..|ds| - 1]);
      assert ds[..|ds| - 1][1..] == ds[1..][..|ds| - 2];
    } else {
      assert ds[..0] == ds[1..] == [];
    }
  }

  ghost predicate CountsOk(s: State) {
    && s.nMatch + s.nEmpty + s.nTimedOut + CountL1(s.pgpQueue) == CountL1(s.arrivals)
    && s.nUpdates == s.nMissed + |s.pvs| + |InHand(s.filling)|
  }

  /** What was sent, followed by what waits, is what arrived; the queue holds
      datagrams untouched since they arrived. */
  ghost predicate OrderOk(arrivals: seq<Dgram>, pgpQueue: seq<Dgram>, sent: nat) {
    && sent + |pgpQueue| == |arrivals|
    && pgpQueue == arrivals[sent..]
    && (forall k :: 0 <= k < |arrivals| ==> arrivals[k] == Raw(arrivals[k]))
    && (forall k :: 0 <= k < |pgpQueue| ==> Queued(pgpQueue[k].service))
    && SortedD(arrivals)
  }

  /** The PV queue is the unconsumed end of the PV stream. */
  ghost predicate PvStreamOk(pvs: seq<PvData>, pvQueue: seq<Pv>, filling: Option<Filling>) {
    && Sorted(pvs)
    && (forall i :: 0 <= i < |pvs| ==> pvs[i].damage <= {Truncated})
    && |pvQueue| <= |pvs|
    && Datas(pvQueue) == pvs[|pvs| - |pvQueue|..]
    && (filling.Some? && pvs != [] ==> pvs[|pvs| - 1].time < filling.value.time)
  }

  /** A consumed PV is older than everything still waiting for one. */
  ghost predicate ConsumedBefore(pvs: seq<PvData>, consumed: nat, pgpQueue: seq<Dgram>, arrivals: seq<Dgram>) {
    && consumed <= |pvs|
    && (forall i :: 0 <= i < consumed ==> pvs[i].time <= LastTime(arrivals))
    && (pgpQueue != [] ==> forall i :: 0 <= i < consumed ==> pvs[i].time < pgpQueue[0].time)
  }

  ghost predicate SentOk(arrivals: seq<Dgram>, teb: seq<Dgram>, fates: seq<Fate>, pvs: seq<PvData>) {
    && |teb| == |fates| <= |arrivals|
    && forall k {:trigger teb[k]} :: 0 <= k < |teb| ==> Settled(arrivals[k], teb[k], fates[k], pvs)
  }

  ghost predicate RunningOk(s: State) {
    && (!s.running ==> s.pgpQueue == [])
    && (forall k :: 0 <= k < |s.pgpQueue| ==> s.pgpQueue[k].time <= TIME_MAX)
  }

  ghost predicate Inv(s: State) {
    && OrderOk(s.arrivals, s.pgpQueue, |s.teb|)
    && SentOk(s.arrivals, s.teb, s.fates, s.pvs)
    && PvStreamOk(s.pvs, s.pvQueue, s.filling)
    && |s.pvQueue| <= |s.pvs|
    && ConsumedBefore(s.pvs, |s.pvs| - |s.pvQueue|, s.pgpQueue, s.arrivals)
    && CountsOk(s) && RunningOk(s)
  }

  /** Sending the front of the PGP queue keeps the order and count invariants. */
  lemma SendFront(s: State, s': State, sent: Dgram, fate: Fate)
    requires Inv(s) && s.pgpQueue != []
    requires s'.teb == s.teb + [sent] && s'.fates == s.fates + [fate]
    requires s'.pgpQueue == s.pgpQueue[1..] && s'.arrivals == s.arrivals && s'.pvs == s.pvs
    requires Settled(s.pgpQueue[0], sent, fate, s.pvs)
    ensures OrderOk(s'.arrivals, s'.pgpQueue, |s'.teb|) && SentOk(s'.arrivals, s'.teb, s'.fates, s'.pvs)
    ensures CountL1(s.pgpQueue) == One(s.pgpQueue[0]) + CountL1(s'.pgpQueue)
    ensures s'.pgpQueue != [] ==> s.pgpQueue[0].time < s'.pgpQueue[0].time
    ensures s.pgpQueue[0].time <= LastTime(s.arrivals)
  {
    CountL1Head(s.pgpQueue);
    assert s.pgpQueue[0] == s.arrivals[|s.teb|];
    assert s'.pgpQueue == s'.arrivals[|s'.teb|..];
  }

  lemma FrontPv(s: State)
    requires Inv(s) && s.pvQueue != []
    ensures s.pvQueue[0].data == s.pvs[|s.pvs| - |s.pvQueue|]
    ensures Datas(s.pvQueue[1..]) == s.pvs[|s.pvs| - |s.pvQueue| + 1..]
  {
    assert Datas(s.pvQueue)[0] == s.pvQueue[0].data;
    assert Datas(s.pvQueue[1..]) == Datas(s.pvQueue)[1..];
  }

  /** Popping the PGP front keeps the PV stream invariant; so does also popping a
      PV no younger than it. */
  lemma PopKeepsPvs(s: State, s': State)
    requires Inv(s) && s.pgpQueue != []
    requires s'.pgpQueue == s.pgpQueue[1..] && s'.arrivals == s.arrivals && s'.pvs == s.pvs && s'.filling == s.filling
    requires s'.pgpQueue != [] ==> s.pgpQueue[0].time < s'.pgpQueue[0].time
    requires s.pgpQueue[0].time <= LastTime(s.arrivals)
    requires s'.pvQueue == s.pvQueue ||
             (s.pvQueue != [] && s'.pvQueue == s.pvQueue[1..] && s.pvQueue[0].data.time <= s.pgpQueue[0].time)
    ensures PvStreamOk(s'.pvs, s'.pvQueue, s'.filling)
    ensures |s'.pvQueue| <= |s'.pvs| && ConsumedBefore(s'.pvs, |s'.pvs| - |s'.pvQueue|, s'.pgpQueue, s'.arrivals)
  {
    if s'.pvQueue != s.pvQueue {
      FrontPv(s);
    }
  }

  lemma MatchMeansJoined(s: State)
    requires Inv(s) && !Quiet(s) && s.pvQueue[0].data.time == s.pgpQueue[0].time
    ensures Settled(s.pgpQueue[0], Filled(s.pgpQueue[0], s.pvQueue[0].data), ByMatch, s.pvs)
  {
    FrontPv(s);
    var d, front := s.pgpQueue[0], |s.pvs| - |s.pvQueue|;
    LookupUnique(s.pvs, front);
    assert Decided(d, s.pvs) by { assert s.pvs[front].time >= d.time; }
  }

  lemma MatchedKeepsInv(s: State)
    requires Inv(s) && !Quiet(s) && s.pvQueue[0].data.time == s.pgpQueue[0].time
    ensures Inv(HandleMatch(s))
  {
    MatchMeansJoined(s);
    SendFront(s, HandleMatch(s), Filled(s.pgpQueue[0], s.pvQueue[0].data), ByMatch);
    PopKeepsPvs(s, HandleMatch(s));
  }

  lemma YoungerMeansMissing(s: State)
    requires Inv(s) && !Quiet(s) && s.pvQueue[0].data.time > s.pgpQueue[0].time
    ensures Settled(s.pgpQueue[0], Damaged(s.pgpQueue[0], MissingData), ByMatch, s.pvs)
  {
    FrontPv(s);
    var d, front := s.pgpQueue[0], |s.pvs| - |s.pvQueue|;
    assert Decided(d, s.pvs) by { assert s.pvs[front].time >= d.time; }
    forall i | 0 <= i < |s.pvs| ensures s.pvs[i].time != d.time {
      if i > front {
        assert s.pvs[front].time < s.pvs[i].time;
      }
    }
    LookupAbsent(s.pvs, d.time);
  }

  lemma YoungerKeepsInv(s: State)
    requires Inv(s) && !Quiet(s) && s.pvQueue[0].data.time > s.pgpQueue[0].time
    ensures Inv(HandleYounger(s))
  {
    YoungerMeansMissing(s);
    SendFront(s, HandleYounger(s), Damaged(s.pgpQueue[0], MissingData), ByMatch);
    PopKeepsPvs(s, HandleYounger(s));
  }

  lemma OlderKeepsInv(s: State)
    requires Inv(s) && !Quiet(s) && s.pvQueue[0].data.time < s.pgpQueue[0].time
    ensures Inv(HandleOlder(s))
  {
    FrontPv(s);
    var s' := HandleOlder(s);
    var d := s.pgpQueue[0];
    assert d == s.arrivals[|s.teb|];
    assert d.time <= LastTime(s.arrivals);
  }

  lemma MatchKeepsInv(s: State)
    requires Inv(s) && !Quiet(s)
    ensures Inv(MatchStep(s))
  {
    var pv, d := s.pvQueue[0].data.time, s.pgpQueue[0].time;
    if pv == d {
      MatchedKeepsInv(s);
    } else if pv > d {
      YoungerKeepsInv(s);
    } else {
      OlderKeepsInv(s);
    }
  }

  lemma ExpireOneKeepsInv(s: State)
    requires Inv(s) && s.pgpQueue != []
    ensures Inv(ExpireOne(s))
  {
    SendFront(s, ExpireOne(s), Damaged(s.pgpQueue[0], TimedOut), ByTimeout);
    PopKeepsPvs(s, ExpireOne(s));
  }

  lemma {:induction false} ExpireKeepsInv(s: State, threshold: Time)
    requires Inv(s)
    ensures Inv(ExpireAll(s, threshold))
    decreases |s.pgpQueue|
  {
    if s.pgpQueue != [] && s.pgpQueue[0].time <= threshold {
      ExpireOneKeepsInv(s);
      ExpireKeepsInv(ExpireOne(s), threshold);
    }
  }

  /** _timeout touches only the queue, what is sent and one counter. */
  lemma {:induction false} ExpireFrame(s: State, threshold: Time)
    ensures var s' := ExpireAll(s, threshold);
            s'.(pgpQueue := s.pgpQueue, teb := s.teb, fates := s.fates, nTimedOut := s.nTimedOut) == s
    decreases |s.pgpQueue|
  {
    if s.pgpQueue != [] && s.pgpQueue[0].time <= threshold {
      ExpireFrame(ExpireOne(s), threshold);
    }
  }

  /** It sends exactly the datagrams no newer than the threshold. */
  lemma {:induction false} ExpireLeavesNewer(s: State, threshold: Time)
    requires Inv(s)
    ensures forall k :: 0 <= k < |ExpireAll(s, threshold).pgpQueue| ==>
            ExpireAll(s, threshold).pgpQueue[k].time > threshold
    ensures threshold == TIME_MAX ==> ExpireAll(s, threshold).pgpQueue == []
    decreases |s.pgpQueue|
  {
    if s.pgpQueue == [] {
    } else if s.pgpQueue[0].time > threshold {
      forall k | 0 <= k < |s.pgpQueue| ensures s.pgpQueue[k].time > threshold {
        assert s.pgpQueue[0] == s.arrivals[|s.teb|] && s.pgpQueue[k] == s.arrivals[|s.teb| + k];
      }
    } else {
      ExpireOneKeepsInv(s);
      ExpireLeavesNewer(ExpireOne(s), threshold);
    }
  }

  lemma FinishKeepsInv(s: State, data: Payload)
    requires Inv(s) && s.filling.Some?
    ensures Inv(FinishUpdate(s, data))
  {
    var pv := Truncate(s.room, s.filling.value.time, data);
    FinishStream(s.pvs, s.pvQueue, s.filling.value, pv);
    FinishSent(s.arrivals, s.teb, s.fates, s.pvs, pv);
  }

  lemma FinishStream(pvs: seq<PvData>, pvQueue: seq<Pv>, filling: Filling, pv: PvData)
    requires PvStreamOk(pvs, pvQueue, Some(filling)) && pv.time == filling.time && pv.damage <= {Truncated}
    ensures PvStreamOk(pvs + [pv], pvQueue + [Pv(filling.buffer, pv)], None)
  {
    SortedAppend(pvs, pv);
    DatasAppend(pvQueue, filling.buffer, pv);
    SuffixAppend(pvs, |pvs| - |pvQueue|, pv);
  }

  lemma SortedAppend(pvs: seq<PvData>, pv: PvData)
    requires Sorted(pvs) && (pvs != [] ==> pvs[|pvs| - 1].time < pv.time)
    ensures Sorted(pvs + [pv])
  {
    forall i | 0 <= i < |pvs| ensures pvs[i].time < pv.time {
      assert i < |pvs| - 1 ==> pvs[i].time < pvs[|pvs| - 1].time;
    }
  }

  lemma SuffixAppend(pvs: seq<PvData>, n: nat, pv: PvData)
    requires n <= |pvs|
    ensures (pvs + [pv])[n..] == pvs[n..] + [pv]
  {
  }

  lemma DatasAppend(q: seq<Pv>, buffer: nat, pv: PvData)
    ensures Datas(q + [Pv(buffer, pv)]) == Datas(q) + [pv]
  {
  }

  lemma FinishSent(arrivals: seq<Dgram>, teb: seq<Dgram>, fates: seq<Fate>, pvs: seq<PvData>, pv: PvData)
    requires SentOk(arrivals, teb, fates, pvs) && Sorted(pvs + [pv])
    ensures SentOk(arrivals, teb, fates, pvs + [pv])
  {
    forall k {:trigger teb[k]} | 0 <= k < |teb| ensures Settled(arrivals[k], teb[k], fates[k], pvs + [pv]) {
      assert Settled(arrivals[k], teb[k], fates[k], pvs);
      if fates[k].ByMatch? {
        DecidedIsStable(arrivals[k], pvs, [pv]);
      }
    }
  }

  lemma AppendArrival(s: State, d: Dgram)
    requires Inv(s) && NewestPgp(s, d.time) && d == Raw(d)
    ensures SortedD(s.arrivals + [d])
    ensures CountL1(s.arrivals + [d]) == CountL1(s.arrivals) + One(d)
    ensures forall i :: 0 <= i < |s.pvs| - |s.pvQueue| ==> s.pvs[i].time < d.time
  {
    forall i | 0 <= i < |s.arrivals| ensures s.arrivals[i].time < d.time {
      assert i < |s.arrivals| - 1 ==> s.arrivals[i].time < s.arrivals[|s.arrivals| - 1].time;
    }
    assert (s.arrivals + [d])[..|s.arrivals|] == s.arrivals;
  }

  lemma ArriveKeepsInv(s: State, d: Dgram)
    requires Inv(s) && s.running && NewestPgp(s, d.time) && d == Raw(d) && Queued(d.service) && d.time <= TIME_MAX
    ensures Inv(PushPgp(s, d))
  {
    ArriveOrder(s.arrivals, s.pgpQueue, |s.teb|, d);
    ArriveSent(s.arrivals, s.teb, s.fates, s.pvs, d);
    ArriveConsumed(s.pvs, |s.pvs| - |s.pvQueue|, s.pgpQueue, s.arrivals, d);
    ArriveCounts(s, d);
  }

  lemma ArriveCounts(s: State, d: Dgram)
    requires CountsOk(s) && RunningOk(s) && s.running && d.time <= TIME_MAX
    ensures CountsOk(PushPgp(s, d)) && RunningOk(PushPgp(s, d))
  {
    CountL1Append(s.arrivals, d);
    CountL1Append(s.pgpQueue, d);
  }

  lemma CountL1Append(ds: seq<Dgram>, d: Dgram)
    ensures CountL1(ds + [d]) == CountL1(ds) + One(d)
  {
    assert (ds + [d])[..|ds|] == ds;
  }

  lemma ArriveOrder(arrivals: seq<Dgram>, pgpQueue: seq<Dgram>, sent: nat, d: Dgram)
    requires OrderOk(arrivals, pgpQueue, sent) && LastTime(arrivals) < d.time && d == Raw(d) && Queued(d.service)
    ensures OrderOk(arrivals + [d], pgpQueue + [d], sent)
  {
    forall i | 0 <= i < |arrivals| ensures arrivals[i].time < d.time {
      assert i < |arrivals| - 1 ==> arrivals[i].time < arrivals[|arrivals| - 1].time;
    }
    assert pgpQueue + [d] == (arrivals + [d])[sent..];
  }

  lemma ArriveSent(arrivals: seq<Dgram>, teb: seq<Dgram>, fates: seq<Fate>, pvs: seq<PvData>, d: Dgram)
    requires SentOk(arrivals, teb, fates, pvs)
    ensures SentOk(arrivals + [d], teb, fates, pvs)
  {
  }

  lemma ArriveConsumed(pvs: seq<PvData>, consumed: nat, pgpQueue: seq<Dgram>, arrivals: seq<Dgram>, d: Dgram)
    requires ConsumedBefore(pvs, consumed, pgpQueue, arrivals) && LastTime(arrivals) < d.time
    ensures ConsumedBefore(pvs, consumed, pgpQueue + [d], arrivals + [d])
  {
  }

  lemma DirectKeepsInv(s: State, d: Dgram)
    requires Inv(s) && s.pgpQueue == [] && NewestPgp(s, d.time) && d == Raw(d) && !Queued(d.service)
    ensures Inv(Send(s.(arrivals := s.arrivals + [d]), d, Directly))
  {
    AppendArrival(s, d);
  }

  lemma TransitionKeepsInv(s: State, d: Dgram)
    requires Inv(s) && NewestPgp(s, d.time) && d == Raw(d) && !Queued(d.service)
    requires s.running == d.service.Disable?
    ensures Inv(SendTransition(s, d))
    ensures SendTransition(s, d).pgpQueue == []
  {
    var off := s.(running := false);
    if d.service.Disable? {
      // The sweep itself never looks at the running flag.
      SweepIgnoresRunning(s, TIME_MAX);
      ExpireKeepsInv(s, TIME_MAX);
      ExpireLeavesNewer(s, TIME_MAX);
      ExpireFrame(s, TIME_MAX);
      DirectKeepsInv(ExpireAll(off, TIME_MAX), d);
    } else if d.service.Enable? {
      DirectKeepsInv(s.(running := true), d);
    } else {
      DirectKeepsInv(s, d);
    }
  }

  lemma {:induction false} SweepIgnoresRunning(s: State, threshold: Time)
    ensures ExpireAll(s.(running := false), threshold) == ExpireAll(s, threshold).(running := false)
    decreases |s.pgpQueue|
  {
    if s.pgpQueue != [] && s.pgpQueue[0].time <= threshold {
      SweepIgnoresRunning(ExpireOne(s), threshold);
      assert ExpireOne(s.(running := false)) == ExpireOne(s).(running := false);
    }
  }

  lemma BeginKeepsInv(s: State, time: Time)
    requires Inv(s) && s.filling.None? && NewestPv(s, time)
    ensures Inv(BeginUpdate(s, time))
  {
    if s.running && s.freelist != [] {
      FillingNewest(s.pvs, s.pvQueue, s.freelist[0], time);
    }
  }

  lemma FillingNewest(pvs: seq<PvData>, pvQueue: seq<Pv>, buffer: nat, time: Time)
    requires PvStreamOk(pvs, pvQueue, None) && (pvs != [] ==> pvs[|pvs| - 1].time < time)
    ensures PvStreamOk(pvs, pvQueue, Some(Filling(buffer, time)))
  {
  }

  lemma InitialInv(s: State, n: nat)
    requires Initial(s, n)
    ensures Inv(s)
  {
  }

  lemma StepKeepsInv(s: State, a: Action)
    requires Inv(s) && Step(s, a).Some?
    ensures Inv(Step(s, a).value)
  {
    match a
    case PvBegin(time) => BeginKeepsInv(s, time);
    case PvFinish(data) => FinishKeepsInv(s, data);
    case Arrive(i, t, v) => ArriveKeepsInv(s, Fresh(i, t, v));
    case MatchOne => MatchKeepsInv(s);
    case Timeout(threshold) => ExpireKeepsInv(s, threshold);
    case Transition(i, t, v) => TransitionKeepsInv(s, Fresh(i, t, v));
  }

  lemma Reachable(n: nat, s0: State, acts: seq<Action>)
    requires Initial(s0, n)
    ensures Exec(Step, s0, acts).Some? ==> Inv(Exec(Step, s0, acts).value)
  {
    forall s: State, a: Action {:trigger Step(s, a)} | Inv(s) && Step(s, a).Some? ensures Inv(Step(s, a).value) {
      StepKeepsInv(s, a);
    }
    InitialInv(s0, n);
    Invariant(Step, Inv, s0, acts);
  }

  function Raws(ds: seq<Dgram>): (rs: seq<Dgram>)
    ensures |rs| == |ds| && forall k :: 0 <= k < |ds| ==> rs[k] == Raw(ds[k])
  {
    seq(|ds|, k requires 0 <= k < |ds| => Raw(ds[k]))
  }

  /** Every PGP datagram, hence every PGP index, reaches the TEB exactly once and
      in the order of arrival, or is still waiting in that order; and whenever
      the detector is not running nothing waits. */
  lemma SentOnceInArrivalOrder(n: nat, s0: State, acts: seq<Action>)
    requires Initial(s0, n)
    ensures var r := Exec(Step, s0, acts);
            r.Some? ==>
              && Raws(r.value.teb) + r.value.pgpQueue == r.value.arrivals
              && (!r.value.running ==> Raws(r.value.teb) == r.value.arrivals)
  {
    Reachable(n, s0, acts);
    var r := Exec(Step, s0, acts);
    if r.Some? {
      SentThenWaiting(r.value);
    }
  }

  lemma SentThenWaiting(s: State)
    requires Inv(s)
    ensures Raws(s.teb) + s.pgpQueue == s.arrivals
  {
    forall k | 0 <= k < |s.teb| ensures Raws(s.teb)[k] == s.arrivals[k] {
      assert Settled(s.arrivals[k], s.teb[k], s.fates[k], s.pvs);
    }
    assert s.arrivals == s.arrivals[..|s.teb|] + s.arrivals[|s.teb|..];
    assert Raws(s.teb) == s.arrivals[..|s.teb|];
  }

  /** What an L1Accept that left by matching must look like, given every PV queued. */
  ghost predicate MatchedExactly(raw: Dgram, sent: Dgram, pvs: seq<PvData>) {
    && (MissingData in sent.damage <==> forall i :: 0 <= i < |pvs| ==> pvs[i].time != raw.time)
    && (MissingData in sent.damage ==> sent == raw.(damage := {MissingData}))
    && (forall i :: 0 <= i < |pvs| && pvs[i].time == raw.time ==>
          sent == raw.(damage := pvs[i].damage, payload := pvs[i].payload))
  }

  lemma JoinedIsExact(raw: Dgram, pvs: seq<PvData>)
    requires raw == Raw(raw) && raw.service.L1Accept?
    requires Sorted(pvs) && forall i :: 0 <= i < |pvs| ==> pvs[i].damage <= {Truncated}
    ensures MatchedExactly(raw, Joined(raw, pvs), pvs)
  {
    match Lookup(pvs, raw.time)
    case Some(pv) =>
      var j :| 0 <= j < |pvs| && pvs[j] == pv;
      forall i | 0 <= i < |pvs| && pvs[i].time == raw.time ensures i == j {
      }
    case None =>
  }

  /** For every interleaving, timeouts included: an L1Accept that leaves by
      matching carries the payload of the PV with its own timestamp exactly when
      such a PV was ever queued, before or after it left, and MissingData exactly
      otherwise; one that timed out is empty and says so. */
  lemma JoinIsExact(n: nat, s0: State, acts: seq<Action>)
    requires Initial(s0, n)
    ensures var r := Exec(Step, s0, acts);
            r.Some? ==>
              var s := r.value;
              && |s.teb| == |s.fates| <= |s.arrivals|
              && forall k {:trigger s.teb[k]} :: 0 <= k < |s.teb| && s.teb[k].service.L1Accept? ==>
                   && (s.fates[k].ByMatch? ==> MatchedExactly(s.arrivals[k], s.teb[k], s.pvs))
                   && (!s.fates[k].ByMatch? ==> s.teb[k] == s.arrivals[k].(damage := {TimedOut}))
  {
    Reachable(n, s0, acts);
    var r := Exec(Step, s0, acts);
    if r.Some? {
      var s := r.value;
      forall k {:trigger s.teb[k]} | 0 <= k < |s.teb| && s.teb[k].service.L1Accept?
        ensures s.fates[k].ByMatch? ==> MatchedExactly(s.arrivals[k], s.teb[k], s.pvs)
        ensures !s.fates[k].ByMatch? ==> s.teb[k] == s.arrivals[k].(damage := {TimedOut})
      {
        assert Settled(s.arrivals[k], s.teb[k], s.fates[k], s.pvs);
        if s.fates[k].ByMatch? {
          JoinedIsExact(s.arrivals[k], s.pvs);
        }
      }
    }
  }

  ghost predicate NoneTimedOut(s: State) {
    forall k :: 0 <= k < |s.fates| ==> !s.fates[k].ByTimeout?
  }

  /** Once matching has run dry, only datagrams still ahead of every PV wait. */
  lemma NothingWaitsInVain(s: State, k: nat)
    requires Inv(s) && Quiet(s) && |s.teb| <= k < |s.arrivals|
    ensures !Decided(s.arrivals[k], s.pvs)
  {
    assert s.arrivals[k] == s.pgpQueue[k - |s.teb|];
    assert s.pgpQueue[0] == s.arrivals[|s.teb|];
    assert |s.pvQueue| == 0;
  }

  lemma SentWasDecided(s: State, k: nat)
    requires Inv(s) && NoneTimedOut(s) && k < |s.teb|
    ensures Decided(s.arrivals[k], s.pvs)
    ensures s.teb[k] == if Queued(s.arrivals[k].service) then Joined(s.arrivals[k], s.pvs) else s.arrivals[k]
  {
    assert Settled(s.arrivals[k], s.teb[k], s.fates[k], s.pvs);
  }

  /** With no timeout firing, what is sent depends on the two streams only: two
      runs that queued the same PVs and read the same datagrams, however they
      interleaved, agree wherever both have sent, and once both have matched all
      they can they have sent and kept waiting exactly the same datagrams. */
  lemma ScheduleIndependent(n1: nat, n2: nat, i1: State, i2: State, acts1: seq<Action>, acts2: seq<Action>)
    requires Initial(i1, n1) && Initial(i2, n2)
    requires Exec(Step, i1, acts1).Some? && Exec(Step, i2, acts2).Some?
    requires var s1, s2 := Exec(Step, i1, acts1).value, Exec(Step, i2, acts2).value;
             NoneTimedOut(s1) && NoneTimedOut(s2) && s1.pvs == s2.pvs && s1.arrivals == s2.arrivals
    ensures var s1, s2 := Exec(Step, i1, acts1).value, Exec(Step, i2, acts2).value;
            && (s1.teb <= s2.teb || s2.teb <= s1.teb)
            && (Quiet(s1) && Quiet(s2) ==> s1.teb == s2.teb && s1.pgpQueue == s2.pgpQueue)
  {
    var s1, s2 := Exec(Step, i1, acts1).value, Exec(Step, i2, acts2).value;
    Reachable(n1, i1, acts1);
    Reachable(n2, i2, acts2);
    forall k | 0 <= k < |s1.teb| && k < |s2.teb| ensures s1.teb[k] == s2.teb[k] {
      SentWasDecided(s1, k);
      SentWasDecided(s2, k);
    }
    if Quiet(s1) && |s1.teb| < |s2.teb| {
      NothingWaitsInVain(s1, |s1.teb|);
      SentWasDecided(s2, |s1.teb|);
    }
    if Quiet(s2) && |s2.teb| < |s1.teb| {
      NothingWaitsInVain(s2, |s2.teb|);
      SentWasDecided(s1, |s2.teb|);
    }
  }

  /** Matched, empty, timed-out and queued L1Accepts account for all received;
      queued and missed updates, and the one in progress, for all PV updates. */
  lemma EventsAccounted(n: nat, s0: State, acts: seq<Action>)
    requires Initial(s0, n)
    ensures var r := Exec(Step, s0, acts);
            r.Some? ==>
              var s := r.value;
              && s.nMatch + s.nEmpty + s.nTimedOut + CountL1(s.pgpQueue) == CountL1(s.arrivals)
              && s.nUpdates == s.nMissed + |s.pvs| + |InHand(s.filling)|
  {
    Reachable(n, s0, acts);
  }

  ghost predicate BuffersOk(s: State, n: nat) {
    BuffersPartitioned(s.freelist, s.pvQueue, s.filling, n)
  }

  lemma RecycleKeepsBuffers(s: State, n: nat)
    requires s.pvQueue != [] && BuffersOk(s, n)
    ensures BuffersOk(RecyclePv(s), n)
  {
    var b := s.pvQueue[0].buffer;
    assert Buffers(s.pvQueue) == [b] + Buffers(s.pvQueue[1..]);
  }

  lemma UpdateKeepsBuffers(s: State, a: Action, n: nat)
    requires BuffersOk(s, n) && Step(s, a).Some? && (a.PvBegin? || a.PvFinish?)
    ensures BuffersOk(Step(s, a).value, n)
  {
    if a.PvBegin? {
      if s.running && s.freelist != [] {
        assert s.freelist == [s.freelist[0]] + s.freelist[1..];
      }
    } else {
      var s' := FinishUpdate(s, a.data);
      assert Buffers(s'.pvQueue) == Buffers(s.pvQueue) + [s.filling.value.buffer];
    }
  }

  lemma StepKeepsBuffers(s: State, a: Action, n: nat)
    requires BuffersOk(s, n) && Step(s, a).Some?
    ensures BuffersOk(Step(s, a).value, n)
  {
    match a
    case PvBegin(_) => UpdateKeepsBuffers(s, a, n);
    case PvFinish(_) => UpdateKeepsBuffers(s, a, n);
    case Arrive(_, _, _) =>
    case MatchOne => MatchKeepsBuffers(s, n);
    case Timeout(threshold) => ExpireFrame(s, threshold);
    case Transition(_, _, _) => ExpireFrame(s.(running := false), TIME_MAX);
  }

  lemma MatchKeepsBuffers(s: State, n: nat)
    requires BuffersOk(s, n) && !Quiet(s)
    ensures BuffersOk(MatchStep(s), n)
  {
    RecycleKeepsBuffers(s, n);
  }

  /** PV buffers are conserved: in every run each of the n buffers is in the
      freelist, in the PV queue or being filled, and in one place only, so
      neither queue ever holds more than its capacity n. */
  lemma BuffersConserved(n: nat, s0: State, acts: seq<Action>)
    requires Initial(s0, n)
    ensures var r := Exec(Step, s0, acts);
            r.Some? ==>
              && BuffersPartitioned(r.value.freelist, r.value.pvQueue, r.value.filling, n)
              && |r.value.freelist| + |r.value.pvQueue| + |InHand(r.value.filling)| == n
  {
    var inv := (s: State) => BuffersOk(s, n);
    forall s: State, a: Action {:trigger Step(s, a)} | inv(s) && Step(s, a).Some? ensures inv(Step(s, a).value) {
      StepKeepsBuffers(s, a, n);
    }
    Invariant(Step, inv, s0, acts);
    var r := Exec(Step, s0, acts);
    if r.Some? {
      var s := r.value;
      assert |multiset(s.freelist) + multiset(Buffers(s.pvQueue)) + multiset(InHand(s.filling))| ==
             |multiset(seq(n, i => i))|;
    }
  }

  lemma DirectOvertakes(s: State, d: Dgram)
    requires Inv(s) && s.pgpQueue != [] && d == Raw(d) && LastTime(s.arrivals) < d.time
    ensures Raws(s.teb + [d]) + s.pgpQueue != s.arrivals + [d]
  {
    assert s.arrivals[|s.teb|] == s.pgpQueue[0];
    AppendArrival(s, d);
    assert (s.arrivals + [d])[|s.teb|].time < d.time;
    assert (Raws(s.teb + [d]) + s.pgpQueue)[|s.teb|] == d;
  }

  /** Sending a transition keeps the arrival order if and only if nothing is
      waiting or the transition is the Disable that sweeps it out first. */
  lemma TransitionOrder(s: State, d: Dgram)
    requires Inv(s) && d == Raw(d) && !Queued(d.service) && LastTime(s.arrivals) < d.time
    ensures var s' := SendTransition(s, d);
            Raws(s'.teb) + s'.pgpQueue == s'.arrivals <==> s.pgpQueue == [] || d.service.Disable?
  {
    if d.service.Disable? {
      SweptInOrder(s, d);
    } else if s.pgpQueue == [] {
      SentThenWaiting(s);
      assert Raws(s.teb + [d]) == Raws(s.teb) + [d];
    } else {
      DirectOvertakes(s, d);
    }
  }

  lemma SweptInOrder(s: State, d: Dgram)
    requires Inv(s) && d == Raw(d) && d.service.Disable?
    ensures var t := SendTransition(s, d); Raws(t.teb) + t.pgpQueue == t.arrivals
  {
    var t := ExpireAll(s, TIME_MAX);
    SweepIgnoresRunning(s, TIME_MAX);
    TimedOutAfter(s, TIME_MAX);
    ExpireLeavesNewer(s, TIME_MAX);
    SentThenWaiting(t);
    assert Raws(t.teb + [d]) == Raws(t.teb) + [d];
  }

  // The timeout threshold: from_ns(to_ns(time) - timeout) in 64-bit words.

  const NS: nat := 1_000_000_000
  const WORD32: nat := 0x1_0000_0000
  const WORD64: nat := 0x1_0000_0000_0000_0000

  predicate WellFormed(t: Time) {
    t / WORD32 < WORD32 && t % WORD32 < NS
  }

  function ToNs(t: Time): nat {
    (t / WORD32) * NS + t % WORD32
  }

  function FromNs(ns: nat): Time {
    ((ns / NS) % WORD32) * WORD32 + ns % NS
  }

  function Threshold(time: Time, timeout: nat): Time {
    FromNs((ToNs(time) - timeout) % WORD64)
  }

  lemma NsRoundTrip(t: Time)
    requires WellFormed(t)
    ensures FromNs(ToNs(t)) == t && ToNs(t) < WORD64
  {
  }

  lemma FromNsToNs(ns: nat)
    requires ns < NS * WORD32
    ensures WellFormed(FromNs(ns)) && ToNs(FromNs(ns)) == ns
  {
  }

  lemma NsMonotone(t: Time, u: Time)
    requires WellFormed(t) && WellFormed(u)
    ensures t <= u <==> ToNs(t) <= ToNs(u)
  {
    SameOrder(t / WORD32, t % WORD32, u / WORD32, u % WORD32);
    assert t == (t / WORD32) * WORD32 + t % WORD32 && u == (u / WORD32) * WORD32 + u % WORD32;
  }

  /** Seconds and nanoseconds are in the same order in both forms. */
  lemma SameOrder(a: nat, b: nat, c: nat, d: nat)
    requires b < NS && d < NS
    ensures a * WORD32 + b <= c * WORD32 + d <==> a * NS + b <= c * NS + d
  {
  }

  /** A waiting datagram times out exactly when it is at least the timeout older
      than the one just read; unless the clock is still below the timeout, when
      the subtraction wraps and even the newest datagram is swept out. */
  lemma TimeoutIsAge(time: Time, waiting: Time, timeout: nat)
    requires WellFormed(time) && WellFormed(waiting) && waiting <= time
    requires timeout <= 100_000_000 * NS
    ensures waiting <= Threshold(time, timeout) <==>
            ToNs(time) < timeout || ToNs(waiting) + timeout <= ToNs(time)
  {
    NsRoundTrip(time);
    NsMonotone(waiting, time);
    if timeout <= ToNs(time) {
      var ns := ToNs(time) - timeout;
      assert ns % WORD64 == ns;
      FromNsToNs(ns);
      NsMonotone(waiting, FromNs(ns));
    } else {
      var ns := WORD64 + ToNs(time) - timeout;
      assert (ToNs(time) - timeout) % WORD64 == ns;
      assert ToNs(time) < 100_000_000 * NS;
      assert time / WORD32 < 100_000_000;
      assert ns / NS >= 18_346_744_073 && ns / NS < 18_446_744_074;
      assert (ns / NS) % WORD32 == ns / NS - 4 * WORD32;
    }
  }

  /** The matching loop is a schedule of single matches that ends with one queue empty. */
  lemma {:induction false} MatchAllIsSchedule(s: State) returns (acts: seq<Action>)
    ensures (forall i :: 0 <= i < |acts| ==> acts[i] == MatchOne)
    ensures Exec(Step, s, acts) == Some(MatchAll(s)) && Quiet(MatchAll(s))
    decreases |s.pvQueue| + |s.pgpQueue|
  {
    if Quiet(s) {
      acts := [];
    } else {
      var rest := MatchAllIsSchedule(MatchStep(s));
      acts := [MatchOne] + rest;
      assert Exec(Step, s, []) == Some(s);
      assert [MatchOne][..0] == [];
      assert Exec(Step, s, [MatchOne]) == Some(MatchStep(s));
      ExecSplit(Step, s, [MatchOne], rest);
    }
  }

  lemma {:induction false} MatchAllKeepsInv(s: State)
    requires Inv(s)
    ensures Inv(MatchAll(s))
    decreases |s.pvQueue| + |s.pgpQueue|
  {
    if !Quiet(s) {
      MatchKeepsInv(s);
      MatchAllKeepsInv(MatchStep(s));
    }
  }

  /** What the worker does with an L1Accept or SlowUpdate when no PV interferes. */
  function WorkerStep(s: State, d: Dgram, timeout: nat): State {
    ExpireAll(MatchAll(PushPgp(s, d)), Threshold(d.time, timeout))
  }

  lemma {:induction false} ExpirePrefix(s: State, threshold: Time)
    ensures var t := ExpireAll(s, threshold);
            var n := |s.pgpQueue| - |t.pgpQueue|;
            && 0 <= n && t.pgpQueue == s.pgpQueue[n..] && |t.teb| == |s.teb| + n
            && (t.pgpQueue == [] || t.pgpQueue[0].time > threshold)
            && forall k :: 0 <= k < n ==> s.pgpQueue[k].time <= threshold
    decreases |s.pgpQueue|
  {
    if s.pgpQueue != [] && s.pgpQueue[0].time <= threshold {
      ExpirePrefix(ExpireOne(s), threshold);
    }
  }

  /** d is read next from PGP. */
  predicate Arrives(s: State, d: Dgram) {
    s.running && NewestPgp(s, d.time) && d.time <= TIME_MAX && d == Raw(d) && Queued(d.service)
  }

  /** What was sent for a datagram, given the PVs queued and the time-out threshold. */
  ghost predicate SentFor(raw: Dgram, sent: Dgram, pvs: seq<PvData>, threshold: Time) {
    if exists i :: 0 <= i < |pvs| && pvs[i].time >= raw.time then
      if raw.service.L1Accept? then MatchedExactly(raw, sent, pvs) else sent == raw
    else
      raw.time <= threshold && sent == if raw.service.L1Accept? then raw.(damage := {TimedOut}) else raw
  }

  /** From s to t the worker read d and did all it could: every datagram still waiting is
      newer than the threshold and than all PVs queued. */
  ghost predicate Worked(s: State, d: Dgram, threshold: Time, t: State) {
    && t.arrivals == s.arrivals + [d] && t.pvs == s.pvs && t.running == s.running
    && s.teb <= t.teb && |t.teb| + |t.pgpQueue| == |t.arrivals| && t.pgpQueue == t.arrivals[|t.teb|..]
    && (forall k :: 0 <= k < |t.pgpQueue| ==> t.pgpQueue[k].time > threshold)
    && (forall k, i :: 0 <= k < |t.pgpQueue| && 0 <= i < |t.pvs| ==> t.pvs[i].time < t.pgpQueue[k].time)
    && (forall k {:trigger t.teb[k]} :: |s.teb| <= k < |t.teb| ==> SentFor(t.arrivals[k], t.teb[k], t.pvs, threshold))
  }

  ghost predicate DoesAll(s: State, d: Dgram, threshold: Time, t: State) {
    Inv(s) && Arrives(s, d) ==> Worked(s, d, threshold, t)
  }

  /** What from s to t was sent, has this fate. */
  ghost predicate Extends(s: State, t: State, fate: Fate) {
    && t.arrivals == s.arrivals && t.pvs == s.pvs && t.running == s.running
    && s.teb <= t.teb && s.fates <= t.fates
    && forall k :: |s.fates| <= k < |t.fates| ==> t.fates[k] == fate
  }

  lemma {:induction false} MatchExtends(s: State)
    ensures Extends(s, MatchAll(s), ByMatch) && Quiet(MatchAll(s))
    decreases |s.pvQueue| + |s.pgpQueue|
  {
    if !Quiet(s) {
      MatchExtends(MatchStep(s));
    }
  }

  lemma {:induction false} ExpireExtends(s: State, threshold: Time)
    requires Inv(s)
    ensures var t := ExpireAll(s, threshold);
            && Extends(s, t, ByTimeout) && |t.teb| <= |s.arrivals|
            && forall k :: |s.teb| <= k < |t.teb| ==> s.arrivals[k].time <= threshold
    decreases |s.pgpQueue|
  {
    if s.pgpQueue != [] && s.pgpQueue[0].time <= threshold {
      ExpireOneKeepsInv(s);
      assert s.pgpQueue[0] == s.arrivals[|s.teb|];
      ExpireExtends(ExpireOne(s), threshold);
    }
  }

  lemma SentIsFor(s: State, k: nat, threshold: Time)
    requires Inv(s) && k < |s.teb| && Queued(s.arrivals[k].service)
    requires s.fates[k] == ByMatch || (!Decided(s.arrivals[k], s.pvs) && s.arrivals[k].time <= threshold)
    ensures SentFor(s.arrivals[k], s.teb[k], s.pvs, threshold)
  {
    var raw := s.arrivals[k];
    assert Settled(raw, s.teb[k], s.fates[k], s.pvs);
    if raw.service.L1Accept? && s.fates[k] == ByMatch {
      JoinedIsExact(raw, s.pvs);
    }
  }

  /** The worker's step, whatever has arrived before. */
  lemma WorkerMatches(s: State, d: Dgram, timeout: nat)
    ensures DoesAll(s, d, Threshold(d.time, timeout), WorkerStep(s, d, timeout))
  {
    if Inv(s) && Arrives(s, d) {
      var u := MatchedUp(s, d);
      MatchedThenTimedOut(s, d, u, Threshold(d.time, timeout));
    }
  }

  lemma MatchedThenTimedOut(s: State, d: Dgram, u: State, threshold: Time)
    requires Inv(s) && Arrives(s, d) && Inv(u) && Quiet(u) && Extends(PushPgp(s, d), u, ByMatch)
    ensures Worked(s, d, threshold, ExpireAll(u, threshold))
  {
    TimedOutAfter(u, threshold);
    SentThenWaits(s, d, u, ExpireAll(u, threshold), threshold);
  }

  lemma MatchedUp(s: State, d: Dgram) returns (u: State)
    requires Inv(s) && Arrives(s, d)
    ensures u == MatchAll(PushPgp(s, d)) && Inv(u) && Quiet(u) && Extends(PushPgp(s, d), u, ByMatch)
  {
    u := MatchAll(PushPgp(s, d));
    ArriveKeepsInv(s, d);
    MatchAllKeepsInv(PushPgp(s, d));
    MatchExtends(PushPgp(s, d));
  }

  lemma TimedOutAfter(u: State, threshold: Time)
    requires Inv(u)
    ensures var t := ExpireAll(u, threshold);
            && Inv(t) && Extends(u, t, ByTimeout) && |t.teb| <= |u.arrivals|
            && (forall k :: |u.teb| <= k < |t.teb| ==> u.arrivals[k].time <= threshold)
            && (forall k :: 0 <= k < |t.pgpQueue| ==> t.pgpQueue[k].time > threshold)
  {
    ExpireKeepsInv(u, threshold);
    ExpireExtends(u, threshold);
    ExpireLeavesNewer(u, threshold);
  }

  lemma SentThenWaits(s: State, d: Dgram, u: State, t: State, threshold: Time)
    requires Inv(s) && Arrives(s, d) && Inv(u) && Inv(t) && Quiet(u)
    requires Extends(PushPgp(s, d), u, ByMatch) && Extends(u, t, ByTimeout) && |t.teb| <= |u.arrivals|
    requires forall k :: |u.teb| <= k < |t.teb| ==> u.arrivals[k].time <= threshold
    requires forall k :: 0 <= k < |t.pgpQueue| ==> t.pgpQueue[k].time > threshold
    ensures Worked(s, d, threshold, t)
  {
    StillUndecided(u, t);
    forall k {:trigger t.teb[k]} | |s.teb| <= k < |t.teb| ensures SentFor(t.arrivals[k], t.teb[k], t.pvs, threshold) {
      SentSince(s, d, k);
      SentEither(u, t, k, threshold);
    }
  }

  lemma StillUndecided(u: State, t: State)
    requires Inv(u) && Inv(t) && Quiet(u) && Extends(u, t, ByTimeout)
    ensures forall k, i :: 0 <= k < |t.pgpQueue| && 0 <= i < |t.pvs| ==> t.pvs[i].time < t.pgpQueue[k].time
  {
    forall k, i | 0 <= k < |t.pgpQueue| && 0 <= i < |t.pvs| ensures t.pvs[i].time < t.pgpQueue[k].time {
      NothingWaitsInVain(u, |t.teb| + k);
      assert t.pgpQueue[k] == t.arrivals[|t.teb| + k];
    }
  }

  /** Sent by matching, or undecided when it timed out. */
  lemma SentEither(u: State, t: State, k: nat, threshold: Time)
    requires Inv(u) && Inv(t) && Quiet(u) && Extends(u, t, ByTimeout) && k < |t.teb| <= |u.arrivals|
    requires Queued(u.arrivals[k].service)
    requires k < |u.teb| ==> u.fates[k] == ByMatch
    requires k >= |u.teb| ==> u.arrivals[k].time <= threshold
    ensures SentFor(t.arrivals[k], t.teb[k], t.pvs, threshold)
  {
    if k >= |u.teb| {
      NothingWaitsInVain(u, k);
    } else {
      assert t.fates[k] == u.fates[k];
    }
    SentIsFor(t, k, threshold);
  }

  /** Everything that waited, or just came, is of a service that is queued. */
  lemma SentSince(s: State, d: Dgram, k: nat)
    requires Inv(s) && Arrives(s, d) && |s.teb| <= k < |s.arrivals| + 1
    ensures Queued((s.arrivals + [d])[k].service)
  {
    if k < |s.arrivals| {
      assert s.arrivals[k] == s.pgpQueue[k - |s.teb|];
    }
  }

  /** The detector object; process() runs on the PV thread, the rest on the worker. */
  class PvaDetector {
    const room: nat
    var running: bool
    var bufferFreelist: seq<nat>
    var filling: Option<Filling>
    var pvQueue: seq<Pv>
    var pgpQueue: seq<Dgram>
    var teb: seq<Dgram>
    var nUpdates: nat
    var nMissed: nat
    var nMatch: nat
    var nEmpty: nat
    var nTooOld: nat
    var nTimedOut: nat
    ghost var pvs: seq<PvData>
    ghost var arrivals: seq<Dgram>
    ghost var fates: seq<Fate>

    ghost function View(): State
      reads this
    {
      State(room, running, bufferFreelist, filling, pvQueue, pgpQueue, teb,
            nUpdates, nMissed, nMatch, nEmpty, nTooOld, nTimedOut, pvs, arrivals, fates)
    }

    constructor (room: nat, nbuffers: nat)
      ensures Initial(View(), nbuffers) && Inv(View()) && this.room == room
    {
      this.room := room;
      running := false;
      bufferFreelist := seq(nbuffers, i => i);
      filling := None;
      pvQueue, pgpQueue, teb := [], [], [];
      nUpdates, nMissed, nMatch, nEmpty, nTooOld, nTimedOut := 0, 0, 0, 0, 0, 0;
      pvs, arrivals, fates := [], [], [];
      new;
      InitialInv(View(), nbuffers);
    }

    /** process() up to the point where a buffer is in hand. */
    method BeginProcess(timestamp: Time)
      modifies this
      ensures View() == BeginUpdate(old(View()), timestamp)
      ensures !old(running) ==> View() == old(View())
      ensures old(running) ==> nUpdates == old(nUpdates) + 1
      ensures old(running) && old(bufferFreelist) == [] ==> nMissed == old(nMissed) + 1 && filling == old(filling)
      ensures old(running) && old(bufferFreelist) != [] ==>
                && filling == Some(Filling(old(bufferFreelist[0]), timestamp)) && nMissed == old(nMissed)
                && bufferFreelist == old(bufferFreelist)[1..]
    {
      if running {
        nUpdates := nUpdates + 1;
        if bufferFreelist != [] {
          filling := Some(Filling(bufferFreelist[0], timestamp));
          bufferFreelist := bufferFreelist[1..];
        } else {
          nMissed := nMissed + 1;
        }
      }
    }

    /** event() and the push that ends process(). */
    method EndProcess(data: Payload)
      requires filling.Some?
      modifies this
      ensures View() == FinishUpdate(old(View()), data)
      ensures filling == None && |pvQueue| == |old(pvQueue)| + 1 && pvQueue[..|old(pvQueue)|] == old(pvQueue)
      ensures var pv := pvQueue[|old(pvQueue)|];
              && pv.buffer == old(filling).value.buffer && pv.data.time == old(filling).value.time
              && pv.data.payload <= data && |pv.data.payload| == (if |data| <= room then |data| else room)
              && pv.data.damage == (if |data| <= room then {} else {Truncated})
              && pvs == old(pvs) + [pv.data]
    {
      var pv := PvData(filling.value.time, {}, data);
      if |data| > room {
        pv := pv.(damage := {Truncated}, payload := data[..room]);
      }
      pvQueue := pvQueue + [Pv(filling.value.buffer, pv)];
      filling := None;
      pvs := pvs + [pv];
    }

    method SendToTeb(d: Dgram, ghost fate: Fate)
      modifies this
      ensures View() == Send(old(View()), d, fate)
    {
      teb := teb + [d];
      fates := fates + [fate];
    }

    method MatchUp()
      modifies this
      ensures View() == MatchAll(old(View())) && Quiet(View())
    {
      while true
        invariant MatchAll(View()) == MatchAll(old(View()))
        decreases |pvQueue| + |pgpQueue|
      {
        if pvQueue == [] || pgpQueue == [] {
          break;
        }
        var result := Compare(pvQueue[0].data.time, pgpQueue[0].time);
        if result == 0 {
          HandlesMatch();
        } else if result > 0 {
          HandlesYounger();
        } else {
          HandlesOlder();
        }
      }
    }

    method HandlesMatch()
      requires pvQueue != [] && pgpQueue != []
      modifies this
      ensures View() == HandleMatch(old(View()))
      ensures pgpQueue == old(pgpQueue)[1..] && pvQueue == old(pvQueue)[1..]
      ensures bufferFreelist == old(bufferFreelist) + [old(pvQueue)[0].buffer]
      ensures nMatch == old(nMatch) + (if old(pgpQueue)[0].service == L1Accept then 1 else 0)
      ensures nEmpty == old(nEmpty) && nTooOld == old(nTooOld) && nTimedOut == old(nTimedOut)
    {
      var d, pv := pgpQueue[0], pvQueue[0];
      pgpQueue := pgpQueue[1..];
      pvQueue := pvQueue[1..];
      bufferFreelist := bufferFreelist + [pv.buffer];
      if d.service.L1Accept? {
        d := d.(damage := d.damage + pv.data.damage, payload := d.payload + pv.data.payload);
        nMatch := nMatch + 1;
      }
      SendToTeb(d, ByMatch);
    }

    method HandlesYounger()
      requires pgpQueue != []
      modifies this
      ensures View() == HandleYounger(old(View()))
      ensures pgpQueue == old(pgpQueue)[1..] && pvQueue == old(pvQueue) && bufferFreelist == old(bufferFreelist)
      ensures nEmpty == old(nEmpty) + (if old(pgpQueue)[0].service == L1Accept then 1 else 0)
      ensures nMatch == old(nMatch) && nTooOld == old(nTooOld) && nTimedOut == old(nTimedOut)
    {
      var d := pgpQueue[0];
      pgpQueue := pgpQueue[1..];
      if d.service.L1Accept? {
        d := d.(damage := d.damage + {MissingData});
        nEmpty := nEmpty + 1;
      }
      SendToTeb(d, ByMatch);
    }

    method HandlesOlder()
      requires pvQueue != [] && pgpQueue != []
      modifies this
      ensures View() == HandleOlder(old(View()))
      ensures pgpQueue == old(pgpQueue) && teb == old(teb) && pvQueue == old(pvQueue)[1..]
      ensures bufferFreelist == old(bufferFreelist) + [old(pvQueue)[0].buffer]
      ensures nTooOld == old(nTooOld) + (if old(pgpQueue)[0].service == L1Accept then 1 else 0)
      ensures nMatch == old(nMatch) && nEmpty == old(nEmpty) && nTimedOut == old(nTimedOut)
    {
      if pgpQueue[0].service.L1Accept? {
        nTooOld := nTooOld + 1;
      }
      bufferFreelist := bufferFreelist + [pvQueue[0].buffer];
      pvQueue := pvQueue[1..];
    }

    /** Exactly the datagrams at the front that are not newer are sent. */
    method TimeOut(timestamp: Time)
      modifies this
      ensures View() == ExpireAll(old(View()), timestamp)
      ensures pgpQueue == [] || pgpQueue[0].time > timestamp
      ensures |pgpQueue| <= |old(pgpQueue)| && pgpQueue == old(pgpQueue)[|old(pgpQueue)| - |pgpQueue|..]
      ensures forall k :: 0 <= k < |old(pgpQueue)| - |pgpQueue| ==> old(pgpQueue)[k].time <= timestamp
      ensures |teb| == |old(teb)| + |old(pgpQueue)| - |pgpQueue|
    {
      ExpirePrefix(View(), timestamp);
      while true
        invariant ExpireAll(View(), timestamp) == ExpireAll(old(View()), timestamp)
        decreases |pgpQueue|
      {
        if pgpQueue == [] || pgpQueue[0].time > timestamp {
          break;
        }
        var d := pgpQueue[0];
        pgpQueue := pgpQueue[1..];
        if d.service.L1Accept? {
          d := d.(damage := d.damage + {TimedOut});
          nTimedOut := nTimedOut + 1;
        }
        SendToTeb(d, ByTimeout);
      }
    }

    /** Queue, match, then time out. What waits afterwards can not be decided yet and is
        not old; what was sent meanwhile was decided, and carries its PV or MissingData,
        or was old and undecided, and is marked TimedOut. */
    method HandleQueued(d: Dgram, nsTmo: nat)
      modifies this
      ensures View() == WorkerStep(old(View()), d, nsTmo)
      ensures DoesAll(old(View()), d, Threshold(d.time, nsTmo), View())
    {
      WorkerMatches(View(), d, nsTmo);
      QueueAndMatch(d, nsTmo);
    }

    method QueueAndMatch(d: Dgram, nsTmo: nat)
      modifies this
      ensures View() == WorkerStep(old(View()), d, nsTmo)
    {
      pgpQueue := pgpQueue + [d];
      arrivals := arrivals + [d];
      MatchUp();
      TimeOut(Threshold(d.time, nsTmo));
    }

    method HandleTransition(d: Dgram)
      modifies this
      ensures View() == SendTransition(old(View()), d)
      ensures running == if d.service == Enable then true else if d.service == Disable then false else old(running)
      ensures d.service != Disable ==> teb == old(teb) + [d] && pgpQueue == old(pgpQueue)
    {
      if d.service.Enable? {
        running := true;
      } else if d.service.Disable? {
        running := false;
        ExpireFrame(View(), TIME_MAX);
        TimeOut(TIME_MAX);
      }
      arrivals := arrivals + [d];
      SendToTeb(d, Directly);
    }

    /** The body of the worker loop for one datagram. Whatever happens, what was
        sent and what waits are together what arrived, in order, and a Disable
        leaves nothing waiting. */
    method HandleDgram(index: nat, time: Time, service: Service, nsTmo: nat)
      requires Inv(View()) && LastTime(arrivals) < time <= TIME_MAX
      requires running == (Queued(service) || service.Disable?)
      modifies this
      ensures Inv(View()) && Raws(teb) + pgpQueue == old(arrivals) + [Fresh(index, time, service)]
      ensures service == L1Accept || service == SlowUpdate ==>
                Worked(old(View()), Fresh(index, time, service), Threshold(time, nsTmo), View())
      ensures service != L1Accept && service != SlowUpdate ==>
                && Raws(teb) == old(arrivals) + [Fresh(index, time, service)]
                && teb[|teb| - 1] == Fresh(index, time, service)
                && running == if service == Enable then true else if service == Disable then false else old(running)
    {
      var d := Fresh(index, time, service);
      if Queued(service) {
        TakeQueued(d, nsTmo);
      } else {
        TakeTransition(d);
      }
    }

    method TakeQueued(d: Dgram, nsTmo: nat)
      requires Inv(View()) && Arrives(View(), d)
      modifies this
      ensures Inv(View()) && Raws(teb) + pgpQueue == old(arrivals) + [d]
      ensures Worked(old(View()), d, Threshold(d.time, nsTmo), View())
    {
      WorkerKeepsInv(View(), d, nsTmo);
      SentThenWaiting(WorkerStep(View(), d, nsTmo));
      HandleQueued(d, nsTmo);
    }

    method TakeTransition(d: Dgram)
      requires Inv(View()) && NewestPgp(View(), d.time) && d == Raw(d) && !Queued(d.service)
      requires running == d.service.Disable?
      modifies this
      ensures Inv(View()) && pgpQueue == [] && Raws(teb) == old(arrivals) + [d]
      ensures |teb| > 0 && teb[|teb| - 1] == d
      ensures running == if d.service == Enable then true else if d.service == Disable then false else old(running)
    {
      TransitionKeepsInv(View(), d);
      TransitionArrivals(View(), d);
      LastSent(View(), d);
      SentThenWaiting(SendTransition(View(), d));
      HandleTransition(d);
    }
  }

  lemma WorkerKeepsInv(s: State, d: Dgram, timeout: nat)
    requires Inv(s) && s.running && LastTime(s.arrivals) < d.time <= TIME_MAX && d == Raw(d) && Queued(d.service)
    ensures Inv(WorkerStep(s, d, timeout))
    ensures WorkerStep(s, d, timeout).arrivals == s.arrivals + [d]
  {
    ArriveKeepsInv(s, d);
    var t := PushPgp(s, d);
    MatchAllKeepsInv(t);
    MatchAllFrame(t);
    ExpireKeepsInv(MatchAll(t), Threshold(d.time, timeout));
    ExpireFrame(MatchAll(t), Threshold(d.time, timeout));
  }

  lemma LastSent(s: State, d: Dgram)
    ensures var t := SendTransition(s, d); |t.teb| > 0 && t.teb[|t.teb| - 1] == d
  {
  }

  lemma TransitionArrivals(s: State, d: Dgram)
    ensures SendTransition(s, d).arrivals == s.arrivals + [d]
  {
    ExpireFrame(s.(running := false), TIME_MAX);
  }

  lemma {:induction false} MatchAllFrame(s: State)
    ensures MatchAll(s).arrivals == s.arrivals
    decreases |s.pvQueue| + |s.pgpQueue|
  {
    if !Quiet(s) {
      MatchAllFrame(MatchStep(s));
    }
  }
}
