/** The event loop of psdaq/drp/BldDetectorSlow.cc: one timing datagram held at a time,
    waiting for the contributions of the multicast handlers. */
module BldWorker {
  import opened Runs
  import B = Bld

  datatype Dgram = Dgram(time: nat, isL1: bool)

  /** History: the event next() last gave, the handler just after, and what happened to
      the handler since. */
  datatype Stamp = Stamp(event: B.Event, base: B.Handler, ops: seq<B.Op>)

  /** A handler with its entries in timestamp, in skipPoll and in pfd. */
  datatype Contributor = Contributor(handler: B.Handler, timestamp: nat, skip: bool, asked: bool, stamp: Option<Stamp>)

  /** The bytes copied for a contribution, if any were, and the history of the handler then. */
  datatype Contribution = Contribution(payload: Option<seq<byte>>, stamp: Option<Stamp>)

  type byte = B.byte

  /** A datagram sent, and for an L1Accept the contributions copied into it. */
  datatype Sent = Sent(dgram: Dgram, contributions: seq<Contribution>, dropped: bool)

  /** What poll answers: an error, or what became readable; timeout when nothing did. */
  datatype Poll = Error | Answer(timeout: bool, pgp: bool, bld: seq<bool>)

  /** The other inputs of one iteration: the datagram next() gives and whether another
      is ready after it, the wall clock, and a packet that ends a wait in recv. */
  datatype Input = Input(dgram: Option<Dgram>, moreDgrams: bool, clock: nat, late: seq<Option<seq<byte>>>)

  /** skipPgp is bit 0 of skipPoll, eventsPgp whether pfd[0].events is POLLIN. */
  datatype State = State(
    dgram: Option<Dgram>, doPoll: bool, skipPgp: bool, eventsPgp: bool,
    contributors: seq<Contributor>, sent: seq<Sent>, received: seq<Dgram>)

  datatype Action = Arrive(i: nat, packet: seq<byte>) | Iterate(answer: Poll, input: Input)

  predicate StampOk(c: Contributor) {
    match c.stamp
    case None => c.timestamp == 0
    case Some(s) =>
      && s.event.timestamp == c.timestamp && B.Ok(s.base) && s.base.position > 0 && B.Shown(s.base) == s.event.payload
      && s.base.layout == c.handler.layout && B.OpsOk(s.base.layout, s.ops) && c.handler == B.AfterAll(s.base, s.ops)
  }

  predicate ContributorOk(c: Contributor) {
    B.Ok(c.handler) && StampOk(c)
  }

  predicate HandlersOk(cs: seq<Contributor>) {
    forall i :: 0 <= i < |cs| ==> B.Ok(cs[i].handler)
  }

  predicate AllOk(cs: seq<Contributor>) {
    HandlersOk(cs) && forall i :: 0 <= i < |cs| ==> ContributorOk(cs[i])
  }

  /** A packet arrives, or clear is called. */
  function Applied(c: Contributor, op: B.Op): (r: Contributor)
    requires ContributorOk(c) && (op.Arrives? ==> B.PacketOk(c.handler.layout, op.packet))
    ensures ContributorOk(r) && r.handler == B.After(c.handler, op) && r.timestamp == c.timestamp
  {
    var h := B.After(c.handler, op);
    match c.stamp
    case None => c.(handler := h)
    case Some(s) =>
      B.AfterOneMore(s.base, s.ops, op);
      c.(handler := h, stamp := Some(s.(ops := s.ops + [op])))
  }

  /** next() */
  function Read(c: Contributor): (r: Contributor)
    requires ContributorOk(c) && B.Coming(c.handler) != []
    ensures ContributorOk(r) && !r.skip
  {
    B.NextIsFirst(c.handler);
    LayoutKept(c.handler);
    var e, h := B.Coming(c.handler)[0], B.NextRead(c.handler);
    Contributor(h, e.timestamp, false, false, Some(Stamp(e, h, [])))
  }

  lemma LayoutKept(h: B.Handler)
    requires B.Ok(h) && B.Coming(h) != []
    ensures B.NextRead(h).layout == h.layout
  {
  }

  function ClearedAt(c: Contributor, ts: Option<nat>): (r: Contributor)
    requires ContributorOk(c)
    ensures ContributorOk(r)
  {
    if ts.Some? then Applied(c, B.ClearOlder(ts.value)) else c
  }

  /** Whether next() waits in recv: it is called, and no event is there. */
  predicate Blocks(c: Contributor, ts: Option<nat>, reported: bool)
    requires ContributorOk(c)
  {
    (c.skip || reported) && B.Coming(ClearedAt(c, ts).handler) == []
  }

  /** A contributor's turn: clear, if a datagram is held, then next, if it has data. */
  function Turn(c: Contributor, ts: Option<nat>, reported: bool, late: Option<seq<byte>>): (r: Contributor)
    requires ContributorOk(c)
    requires Blocks(c, ts, reported) ==> late.Some? && B.PacketOk(c.handler.layout, late.value)
    ensures ContributorOk(r)
    ensures !r.skip
  {
    var d := ClearedAt(c, ts);
    if !(c.skip || reported) then d
    else if B.Coming(d.handler) != [] then Read(d)
    else
      var f := Applied(d, B.Arrives(late.value));
      Arrived(d.handler, late.value);
      Read(f)
  }

  lemma Arrived(h: B.Handler, packet: seq<byte>)
    requires B.Ok(h) && B.PacketOk(h.layout, packet)
    ensures B.Coming(B.After(h, B.Arrives(packet))) == B.Coming(h) + B.Events(h.layout, packet)
  {
    B.EventsOfAppend(h.layout, h.socket, packet);
  }

  /** next() is waited for exactly when all the handler's events are older than the
      datagram held: clear then drops what was reported to be there. */
  lemma BlocksIff(c: Contributor, ts: nat, reported: bool)
    requires ContributorOk(c)
    ensures Blocks(c, Some(ts), reported) <==>
            (c.skip || reported) && forall i :: 0 <= i < |B.Coming(c.handler)| ==> B.Coming(c.handler)[i].timestamp < ts
  {
    B.ClearDropsOlder(c.handler, ts);
    B.DropOlderIsLongest(B.Coming(c.handler), ts);
  }

  /** Which contributors the loops of an iteration ask again. */
  datatype Which = Older(ts: nat) | Equal(ts: nat) | All

  predicate Wanted(w: Which, c: Contributor) {
    match w
    case Older(ts) => c.timestamp < ts
    case Equal(ts) => c.timestamp == ts
    case All => true
  }

  /** A bit of skipPoll if an event is buffered, else an event of poll. */
  function Ask(w: Which, c: Contributor): (r: Contributor)
    ensures r.handler == c.handler && r.timestamp == c.timestamp && r.stamp == c.stamp
  {
    if !Wanted(w, c) then c else if B.Ready(c.handler) then c.(skip := true) else c.(asked := true)
  }

  function AskAll(w: Which, cs: seq<Contributor>): (r: seq<Contributor>)
    ensures |r| == |cs| && forall i :: 0 <= i < |cs| ==> r[i] == Ask(w, cs[i])
  {
    seq(|cs|, i requires 0 <= i < |cs| => Ask(w, cs[i]))
  }

  /** The loop set lDoPoll. */
  predicate Polls(w: Which, cs: seq<Contributor>) {
    exists i :: 0 <= i < |cs| && Wanted(w, cs[i]) && !B.Ready(cs[i].handler)
  }

  function Copied(ts: nat, c: Contributor): Contribution
    requires B.Ok(c.handler)
  {
    Contribution(if c.timestamp == ts then Some(B.Shown(c.handler)) else None, c.stamp)
  }

  function CopyAll(ts: nat, cs: seq<Contributor>): (r: seq<Contribution>)
    requires HandlersOk(cs)
    ensures |r| == |cs| && forall i :: 0 <= i < |cs| ==> r[i] == Copied(ts, cs[i])
  {
    seq(|cs|, i requires 0 <= i < |cs| => Copied(ts, cs[i]))
  }

  predicate AllReached(ts: nat, cs: seq<Contributor>) {
    forall i :: 0 <= i < |cs| ==> cs[i].timestamp >= ts
  }

  predicate AnyMissed(ts: nat, cs: seq<Contributor>) {
    exists i :: 0 <= i < |cs| && cs[i].timestamp != ts
  }

  /** Send, and ask for the next datagram. */
  function SendOff(s: State, sent: Sent, more: bool): State {
    s.(sent := s.sent + [sent], dgram := None, skipPgp := s.skipPgp || more,
       eventsPgp := s.eventsPgp || !more, doPoll := s.doPoll || !more)
  }

  /** The rest of an iteration with a datagram. */
  function Built(s: State, timedOut: bool, more: bool): State
    requires s.dgram.Some? && AllOk(s.contributors)
  {
    var d, cs := s.dgram.value, s.contributors;
    var asked := AskAll(Older(d.time), cs);
    var t := s.(contributors := asked, doPoll := s.doPoll || Polls(Older(d.time), cs));
    if !d.isL1 then SendOff(t, Sent(d, [], false), more)
    else if AllReached(d.time, cs) || timedOut then
      SendOff(t.(contributors := AskAll(Equal(d.time), asked), doPoll := t.doPoll || Polls(Equal(d.time), asked)),
              Sent(d, CopyAll(d.time, cs), AnyMissed(d.time, cs)), more)
    else t
  }

  function ClearAll(ts: nat, cs: seq<Contributor>): (r: seq<Contributor>)
    requires AllOk(cs)
    ensures |r| == |cs| && forall i :: 0 <= i < |cs| ==> r[i] == Applied(cs[i], B.ClearOlder(ts))
    ensures AllOk(r)
  {
    seq(|cs|, i requires 0 <= i < |cs| => Applied(cs[i], B.ClearOlder(ts)))
  }

  /** The rest of an iteration with none. */
  function AskedForOne(s: State, timedOut: bool, more: bool, clock: nat): State
    requires AllOk(s.contributors)
  {
    var t := s.(skipPgp := s.skipPgp || more, eventsPgp := s.eventsPgp || !more, doPoll := s.doPoll || !more);
    if !timedOut then t
    else
      var cs := ClearAll(clock, s.contributors);
      t.(contributors := AskAll(All, cs), doPoll := t.doPoll || Polls(All, cs))
  }

  /** What poll reported for contributor i, if it was called. */
  function Reported(s: State, a: Poll, i: nat): bool {
    s.doPoll && a.Answer? && i < |a.bld| && a.bld[i]
  }

  /** poll reports what it was asked for and is there, and nothing when it timed out. */
  predicate Fits(s: State, a: Poll) {
    s.doPoll && a.Answer? ==>
      && |a.bld| == |s.contributors| && (a.pgp ==> s.eventsPgp)
      && (forall i :: 0 <= i < |a.bld| && a.bld[i] ==>
         s.contributors[i].asked && s.contributors[i].handler.socket != [])
      && (a.timeout ==> !a.pgp && forall i :: 0 <= i < |a.bld| ==> !a.bld[i])
  }

  /** The datagram held once the driver was looked at. */
  function Held(s: State, a: Poll, input: Input): Option<Dgram> {
    if s.skipPgp || (s.doPoll && a.Answer? && a.pgp) then input.dgram else s.dgram
  }

  function Time(d: Option<Dgram>): Option<nat> {
    if d.Some? then Some(d.value.time) else None
  }

  /** No handler waits, or only for a packet that comes. */
  predicate Unblocked(s: State, a: Poll, input: Input)
    requires AllOk(s.contributors)
  {
    |input.late| == |s.contributors|
    && forall i | 0 <= i < |s.contributors| && Blocks(s.contributors[i], Time(Held(s, a, input)), Reported(s, a, i)) ::
         input.late[i].Some? && B.PacketOk(s.contributors[i].handler.layout, input.late[i].value)
  }

  function TurnAll(s: State, a: Poll, input: Input): (r: seq<Contributor>)
    requires AllOk(s.contributors) && Unblocked(s, a, input)
    ensures |r| == |s.contributors| && AllOk(r) && forall i :: 0 <= i < |r| ==> !r[i].skip
    ensures forall i :: 0 <= i < |r| ==>
              r[i] == Turn(s.contributors[i], Time(Held(s, a, input)), Reported(s, a, i), input.late[i])
  {
    seq(|s.contributors|, i requires 0 <= i < |s.contributors| =>
      Turn(s.contributors[i], Time(Held(s, a, input)), Reported(s, a, i), input.late[i]))
  }

  /** The driver and the handlers have been looked at. */
  function Looked(s: State, a: Poll, input: Input): (t: State)
    requires AllOk(s.contributors) && Unblocked(s, a, input)
    ensures AllOk(t.contributors)
  {
    var d := Held(s, a, input);
    var took := s.skipPgp || (s.doPoll && a.Answer? && a.pgp);
    s.(dgram := d, doPoll := false, contributors := TurnAll(s, a, input),
       skipPgp := s.skipPgp && !(took && d.Some?), eventsPgp := s.eventsPgp && !(took && d.Some?),
       received := if took && d.Some? then s.received + [d.value] else s.received)
  }

  /** One iteration of the loop. */
  function Iterated(s: State, a: Poll, input: Input): State
    requires AllOk(s.contributors) && Unblocked(s, a, input)
  {
    if s.doPoll && a.Error? then s
    else
      var t := Looked(s, a, input);
      var timedOut := s.doPoll && a.timeout;
      if t.dgram.Some? then Built(t, timedOut, input.moreDgrams)
      else AskedForOne(t, timedOut, input.moreDgrams, input.clock)
  }

  function Step(s: State, a: Action): Option<State> {
    if !AllOk(s.contributors) then None
    else
      match a
      case Arrive(i, packet) =>
        if i >= |s.contributors| || !B.PacketOk(s.contributors[i].handler.layout, packet) then None
        else Some(s.(contributors := s.contributors[i := Applied(s.contributors[i], B.Arrives(packet))]))
      case Iterate(answer, input) =>
        if !Fits(s, answer) || !Unblocked(s, answer, input) then None else Some(Iterated(s, answer, input))
  }

  predicate Initial(s: State) {
    && s.dgram == None && s.doPoll && !s.skipPgp && s.eventsPgp && s.sent == [] && s.received == []
    && AllOk(s.contributors) && forall i :: 0 <= i < |s.contributors| ==>
       !s.contributors[i].skip && s.contributors[i].asked
  }

  function Dgrams(sent: seq<Sent>): seq<Dgram> {
    if sent == [] then [] else Dgrams(sent[..|sent| - 1]) + [sent[|sent| - 1].dgram]
  }

  function Holding(d: Option<Dgram>): seq<Dgram> {
    if d.Some? then [d.value] else []
  }

  /** A datagram is asked for exactly when none is held: the worker is never without
      one and "not waiting for dgram", and a held one is never replaced. */
  predicate OneAtATime(d: Option<Dgram>, skipPgp: bool, eventsPgp: bool) {
    if d.Some? then !eventsPgp && !skipPgp else eventsPgp || skipPgp
  }

  /** Every datagram received was sent once, in order, or is held. */
  predicate NoneLost(received: seq<Dgram>, sent: seq<Sent>, d: Option<Dgram>) {
    received == Dgrams(sent) + Holding(d)
  }

  predicate SomethingToDo(doPoll: bool, skipPgp: bool, cs: seq<Contributor>) {
    doPoll || skipPgp || exists i :: 0 <= i < |cs| && cs[i].skip
  }

  /** What the held datagram waits for is known to be there, or poll will tell. */
  predicate WaitsAreAsked(d: Option<Dgram>, doPoll: bool, cs: seq<Contributor>) {
    d.Some? ==> forall i :: 0 <= i < |cs| && cs[i].timestamp < d.value.time ==> cs[i].skip || (cs[i].asked && doPoll)
  }

  predicate SkipsAreReady(cs: seq<Contributor>) {
    forall i :: 0 <= i < |cs| && cs[i].skip ==> B.Ready(cs[i].handler)
  }

  /** Copied exactly when the handler's last event read has the datagram's time; and
      copied from where the pointer was then. */
  predicate ContributionOk(c: Contribution, ts: nat) {
    match c.stamp
    case None => c.payload.Some? <==> ts == 0
    case Some(s) =>
      && (c.payload.Some? <==> s.event.timestamp == ts)
      && B.Ok(s.base) && s.base.position > 0 && B.Shown(s.base) == s.event.payload && B.OpsOk(s.base.layout, s.ops)
      && (c.payload.Some? ==> c.payload.value == B.Shown(B.AfterAll(s.base, s.ops)))
  }

  predicate SentOk(s: Sent, n: nat) {
    s.dgram.isL1 ==>
      && |s.contributions| == n
      && (forall i :: 0 <= i < n ==> ContributionOk(s.contributions[i], s.dgram.time))
      && (s.dropped <==> exists i :: 0 <= i < n && s.contributions[i].payload.None?)
  }

  predicate AllSentOk(sent: seq<Sent>, n: nat) {
    forall k :: 0 <= k < |sent| ==> SentOk(sent[k], n)
  }

  /** In every state of every run. */
  predicate Inv(s: State) {
    && AllOk(s.contributors) && OneAtATime(s.dgram, s.skipPgp, s.eventsPgp) && NoneLost(s.received, s.sent, s.dgram)
    && SomethingToDo(s.doPoll, s.skipPgp, s.contributors) && WaitsAreAsked(s.dgram, s.doPoll, s.contributors)
    && SkipsAreReady(s.contributors) && AllSentOk(s.sent, |s.contributors|)
  }

  lemma CopyOk(c: Contributor, ts: nat)
    requires ContributorOk(c)
    ensures ContributionOk(Copied(ts, c), ts)
  {
  }

  lemma SendsOk(ts: nat, cs: seq<Contributor>)
    requires AllOk(cs)
    ensures SentOk(Sent(Dgram(ts, true), CopyAll(ts, cs), AnyMissed(ts, cs)), |cs|)
  {
    var r := CopyAll(ts, cs);
    forall i | 0 <= i < |cs| ensures ContributionOk(r[i], ts) {
      CopyOk(cs[i], ts);
    }
    assert forall i :: 0 <= i < |cs| ==> (r[i].payload.None? <==> cs[i].timestamp != ts);
  }

  lemma OneMoreSent(sent: seq<Sent>, s: Sent, n: nat)
    requires AllSentOk(sent, n) && SentOk(s, n)
    ensures AllSentOk(sent + [s], n) && Dgrams(sent + [s]) == Dgrams(sent) + [s.dgram]
  {
    var all := sent + [s];
    assert all[..|all| - 1] == sent;
    forall k | 0 <= k < |all| ensures SentOk(all[k], n) {
      assert k < |sent| ==> all[k] == sent[k];
    }
  }

  lemma SendOffKeeps(s: State, sent: Sent, more: bool)
    requires AllOk(s.contributors) && SkipsAreReady(s.contributors) && AllSentOk(s.sent, |s.contributors|)
    requires s.dgram == Some(sent.dgram) && NoneLost(s.received, s.sent, s.dgram) && SentOk(sent, |s.contributors|)
    ensures Inv(SendOff(s, sent, more))
  {
    OneMoreSent(s.sent, sent, |s.contributors|);
  }

  lemma AskKeeps(w: Which, cs: seq<Contributor>)
    requires AllOk(cs) && SkipsAreReady(cs)
    ensures AllOk(AskAll(w, cs)) && SkipsAreReady(AskAll(w, cs))
  {
  }

  /** Sent with what was copied, after the handlers with data were asked again. */
  lemma ContributedKeeps(t: State, d: Dgram, cs: seq<Contributor>, more: bool)
    requires AllOk(cs) && AllOk(t.contributors) && SkipsAreReady(t.contributors) && d.isL1
    requires AllSentOk(t.sent, |cs|) && |cs| == |t.contributors| && t.dgram == Some(d) &&
             NoneLost(t.received, t.sent, t.dgram)
    ensures Inv(SendOff(t, Sent(d, CopyAll(d.time, cs), AnyMissed(d.time, cs)), more))
  {
    SendsOk(d.time, cs);
    SendOffKeeps(t, Sent(d, CopyAll(d.time, cs), AnyMissed(d.time, cs)), more);
  }

  lemma WaitsAsked(ts: nat, cs: seq<Contributor>, doPoll: bool)
    ensures var asked := AskAll(Older(ts), cs);
            forall i :: 0 <= i < |cs| && asked[i].timestamp < ts ==>
              asked[i].skip || (asked[i].asked && (doPoll || Polls(Older(ts), cs)))
  {
  }

  lemma HoldKeeps(s: State, d: Dgram)
    requires s.dgram == Some(d) && AllOk(s.contributors) && SkipsAreReady(s.contributors) &&
             AllSentOk(s.sent, |s.contributors|)
    requires OneAtATime(s.dgram, s.skipPgp, s.eventsPgp) && NoneLost(s.received, s.sent, s.dgram)
    requires !AllReached(d.time, s.contributors)
    ensures var cs := s.contributors;
            Inv(s.(contributors := AskAll(Older(d.time), cs), doPoll := s.doPoll || Polls(Older(d.time), cs)))
  {
    var cs := s.contributors;
    AskKeeps(Older(d.time), cs);
    WaitsAsked(d.time, cs, s.doPoll);
    var i :| 0 <= i < |cs| && cs[i].timestamp < d.time;
    var asked := AskAll(Older(d.time), cs);
    assert asked[i].skip || Polls(Older(d.time), cs);
  }

  lemma BuildKeeps(s: State, timedOut: bool, more: bool)
    requires s.dgram.Some? && AllOk(s.contributors) && SkipsAreReady(s.contributors) &&
             AllSentOk(s.sent, |s.contributors|)
    requires OneAtATime(s.dgram, s.skipPgp, s.eventsPgp) && NoneLost(s.received, s.sent, s.dgram)
    ensures Inv(Built(s, timedOut, more))
  {
    var d, cs := s.dgram.value, s.contributors;
    var asked := AskAll(Older(d.time), cs);
    AskKeeps(Older(d.time), cs);
    var t := s.(contributors := asked, doPoll := s.doPoll || Polls(Older(d.time), cs));
    if !d.isL1 {
      SendOffKeeps(t, Sent(d, [], false), more);
    } else if AllReached(d.time, cs) || timedOut {
      AskKeeps(Equal(d.time), asked);
      ContributedKeeps(t.(contributors := AskAll(Equal(d.time), asked),
        doPoll := t.doPoll || Polls(Equal(d.time), asked)),
                       d, cs, more);
    } else {
      HoldKeeps(s, d);
    }
  }

  lemma AskForOneKeeps(s: State, timedOut: bool, more: bool, clock: nat)
    requires s.dgram.None? && AllOk(s.contributors) && AllSentOk(s.sent, |s.contributors|)
    requires (forall i :: 0 <= i < |s.contributors| ==> !s.contributors[i].skip)
    requires OneAtATime(s.dgram, s.skipPgp, s.eventsPgp) && NoneLost(s.received, s.sent, s.dgram)
    ensures Inv(AskedForOne(s, timedOut, more, clock))
  {
    if timedOut {
      var cs := ClearAll(clock, s.contributors);
      assert forall i :: 0 <= i < |cs| ==> cs[i].skip == s.contributors[i].skip;
      AskKeeps(All, cs);
    }
  }

  lemma IteratedKeeps(s: State, a: Poll, input: Input)
    requires Inv(s) && Fits(s, a) && Unblocked(s, a, input)
    ensures Inv(Iterated(s, a, input))
  {
    if !(s.doPoll && a.Error?) {
      var t := Looked(s, a, input);
      assert SkipsAreReady(t.contributors);
      assert AllSentOk(t.sent, |t.contributors|);
      assert NoneLost(t.received, t.sent, t.dgram);
      assert OneAtATime(t.dgram, t.skipPgp, t.eventsPgp);
      var timedOut := s.doPoll && a.timeout;
      if t.dgram.Some? {
        BuildKeeps(t, timedOut, input.moreDgrams);
      } else {
        AskForOneKeeps(t, timedOut, input.moreDgrams, input.clock);
      }
    }
  }

  lemma ArriveKeeps(s: State, i: nat, packet: seq<byte>)
    requires Inv(s) && i < |s.contributors| && B.PacketOk(s.contributors[i].handler.layout, packet)
    ensures Inv(s.(contributors := s.contributors[i := Applied(s.contributors[i], B.Arrives(packet))]))
  {
    var c := Applied(s.contributors[i], B.Arrives(packet));
    var cs := s.contributors[i := c];
    assert c.skip == s.contributors[i].skip && c.asked == s.contributors[i].asked;
    assert B.Ready(c.handler) <==> B.Ready(s.contributors[i].handler);
    if k :| 0 <= k < |s.contributors| && s.contributors[k].skip {
      assert cs[k].skip;
    }
  }

  lemma StepKeepsInv(s: State, a: Action)
    requires Inv(s) && Step(s, a).Some?
    ensures Inv(Step(s, a).value)
  {
    match a
    case Arrive(i, packet) => ArriveKeeps(s, i, packet);
    case Iterate(answer, input) => IteratedKeeps(s, answer, input);
  }

  lemma Reachable(s: State, acts: seq<Action>)
    requires Initial(s) && Exec(Step, s, acts).Some?
    ensures Inv(Exec(Step, s, acts).value)
  {
    assert NoneLost(s.received, s.sent, s.dgram);
    forall t: State, a: Action {:trigger Step(t, a)} | Inv(t) && Step(t, a).Some? ensures Inv(Step(t, a).value) {
      StepKeepsInv(t, a);
    }
    Invariant(Step, Inv, s, acts);
  }

  /** In every run every datagram received is sent once, in order, or held; the worker
      asks for one exactly when it holds none, has a poll or something ready to go on
      with, and asks for every contribution that the one held waits for. */
  lemma EveryDatagramIsSent(s: State, acts: seq<Action>)
    requires Initial(s) && Exec(Step, s, acts).Some?
    ensures var t := Exec(Step, s, acts).value;
            && t.received == Dgrams(t.sent) + Holding(t.dgram)
            && (t.dgram.None? <==> t.eventsPgp || t.skipPgp)
            && (t.doPoll || t.skipPgp || exists i :: 0 <= i < |t.contributors| && t.contributors[i].skip)
            && WaitsAreAsked(t.dgram, t.doPoll, t.contributors)
  {
    Reachable(s, acts);
  }

  /** In every run an L1Accept has a contribution of a handler exactly when the last
      event read there has its time. The payload was copied from where that event was if
      and only if every clear since it was read was quiet, and then it is the event's. A
      handler that has read nothing contributes when the time is 0, as its entry is. */
  lemma ContributionIff(s: State, acts: seq<Action>, k: nat, i: nat)
    requires Initial(s) && Exec(Step, s, acts).Some?
    requires k < |Exec(Step, s, acts).value.sent| && i < |Exec(Step, s, acts).value.contributors|
    requires Exec(Step, s, acts).value.sent[k].dgram.isL1
    ensures var m := Exec(Step, s, acts).value.sent[k];
            && |m.contributions| == |Exec(Step, s, acts).value.contributors|
            && (m.dropped <==> exists j :: 0 <= j < |m.contributions| && m.contributions[j].payload.None?)
            && (m.contributions[i].stamp.None? ==> (m.contributions[i].payload.Some? <==> m.dgram.time == 0))
            && (m.contributions[i].stamp.Some? ==>
                  var c, st := m.contributions[i], m.contributions[i].stamp.value;
                  && (c.payload.Some? <==> st.event.timestamp == m.dgram.time)
                  && B.Ok(st.base) && B.Shown(st.base) == st.event.payload && B.OpsOk(st.base.layout, st.ops)
                  && (c.payload.Some? ==> c.payload.value == B.Shown(B.AfterAll(st.base, st.ops)))
                  && (B.SamePlace(st.base, B.AfterAll(st.base, st.ops)) <==> B.Quiet(st.base, st.ops))
                  && (c.payload.Some? && B.Quiet(st.base, st.ops) ==> c.payload.value == st.event.payload))
  {
    Reachable(s, acts);
    var t := Exec(Step, s, acts).value;
    assert SentOk(t.sent[k], |t.contributors|);
    var c := t.sent[k].contributions[i];
    assert ContributionOk(c, t.sent[k].dgram.time);
    if c.stamp.Some? {
      B.WaitKeepsPointer(c.stamp.value.base, c.stamp.value.ops);
    }
  }

  /** In every run next() waits for a packet exactly when a datagram is held, the handler
      was ready or reported, and everything there is older: clear took it. */
  lemma WaitsIff(s: State, acts: seq<Action>, a: Poll, input: Input, i: nat)
    requires Initial(s) && Exec(Step, s, acts).Some?
    requires Fits(Exec(Step, s, acts).value, a) && i < |Exec(Step, s, acts).value.contributors|
    ensures var t := Exec(Step, s, acts).value;
            var c, d, r := t.contributors[i], Held(t, a, input), Reported(t, a, i);
            && AllOk(t.contributors)
            && (Blocks(c, Time(d), r) <==>
                  d.Some? && (c.skip || r)
                  && forall j :: 0 <= j < |B.Coming(c.handler)| ==> B.Coming(c.handler)[j].timestamp < d.value.time)
  {
    Reachable(s, acts);
    var t := Exec(Step, s, acts).value;
    var c, d, r := t.contributors[i], Held(t, a, input), Reported(t, a, i);
    if d.Some? {
      BlocksIff(c, d.value.time, r);
    } else if c.skip {
      B.ReadyIsBuffered(c.handler);
    } else if r {
      assert c.handler.socket != [];
    }
  }

  /** A contributor's turn: a handler with data gives the first of its events that is not
      older than the datagram held, or of a packet that it waits for; others give none. */
  lemma TurnReads(c: Contributor, ts: Option<nat>, reported: bool, late: Option<seq<byte>>)
    requires ContributorOk(c)
    requires Blocks(c, ts, reported) ==> late.Some? && B.PacketOk(c.handler.layout, late.value)
    ensures var left := if ts.Some? then B.DropOlder(B.Coming(c.handler), ts.value) else B.Coming(c.handler);
            var t := Turn(c, ts, reported, late);
            if !(c.skip || reported) then t.timestamp == c.timestamp && B.Coming(t.handler) == left
            else
              var all := if Blocks(c, ts, reported) then B.Events(c.handler.layout, late.value) else left;
              && (Blocks(c, ts, reported) <==> left == [])
              && all != [] && t.timestamp == all[0].timestamp && B.Coming(t.handler) == all[1..]
              && B.Shown(t.handler) == all[0].payload && t.stamp.Some? && t.stamp.value.event == all[0] && !t.asked
  {
    if ts.Some? {
      B.ClearDropsOlder(c.handler, ts.value);
    }
    var d := ClearedAt(c, ts);
    if c.skip || reported {
      if B.Coming(d.handler) != [] {
        B.NextIsFirst(d.handler);
      } else {
        Arrived(d.handler, late.value);
        assert [] + B.Events(c.handler.layout, late.value) == B.Events(c.handler.layout, late.value);
        B.NextIsFirst(B.After(d.handler, B.Arrives(late.value)));
      }
    }
  }

  /** Known to have data, or poll will tell. */
  predicate IsAsked(c: Contributor, doPoll: bool) {
    c.skip || (c.asked && doPoll)
  }

  /** When poll timed out with no datagram held, every handler loses its events older than
      the clock, less the time packets may take, and is asked again. */
  lemma TimeoutClears(s: State, a: Poll, input: Input, i: nat)
    requires Inv(s) && Fits(s, a) && Unblocked(s, a, input) && i < |s.contributors|
    requires s.doPoll && a.Answer? && a.timeout && Held(s, a, input).None?
    ensures var t, u := Iterated(s, a, input), Looked(s, a, input);
            && |t.contributors| == |u.contributors| == |s.contributors|
            && B.Coming(t.contributors[i].handler) == B.DropOlder(B.Coming(u.contributors[i].handler), input.clock)
            && IsAsked(t.contributors[i], t.doPoll)
  {
    var u := Looked(s, a, input);
    var cs := ClearAll(input.clock, u.contributors);
    B.ClearDropsOlder(u.contributors[i].handler, input.clock);
    assert AskAll(All, cs)[i] == Ask(All, cs[i]);
  }

  /** When an L1Accept was sent, the handlers that contributed are asked for their next. */
  lemma ContributorsAskedAgain(s: State, timedOut: bool, more: bool, i: nat)
    requires s.dgram.Some? && AllOk(s.contributors) && i < |s.contributors| && s.dgram.value.isL1
    requires s.contributors[i].timestamp == s.dgram.value.time && Built(s, timedOut, more).dgram.None?
    ensures var t := Built(s, timedOut, more);
            |t.contributors| == |s.contributors| && IsAsked(t.contributors[i], t.doPoll)
  {
    var ts, cs := s.dgram.value.time, s.contributors;
    var asked := AskAll(Older(ts), cs);
    assert asked[i] == cs[i];
    assert AskAll(Equal(ts), asked)[i] == Ask(Equal(ts), asked[i]);
  }

  lemma BuildHolds(s: State, timedOut: bool, more: bool)
    requires s.dgram.Some? && AllOk(s.contributors)
    ensures var t, d := Built(s, timedOut, more), s.dgram.value;
            && (t.dgram.Some? <==>
                  d.isL1 && !timedOut && exists i :: 0 <= i < |t.contributors| && t.contributors[i].timestamp < d.time)
            && (t.dgram.Some? ==> t.dgram.value == d && t.sent == s.sent)
            && (t.dgram.None? ==>
               |t.sent| == |s.sent| + 1 && t.sent[..|s.sent|] == s.sent && t.sent[|s.sent|].dgram == d)
  {
    var cs := s.contributors;
    var asked := AskAll(Older(s.dgram.value.time), cs);
    assert forall i :: 0 <= i < |cs| ==> asked[i].timestamp == cs[i].timestamp;
  }

  /** A datagram is held after an iteration exactly while it is an L1Accept, a
      contribution is behind it and poll has not timed out. */
  lemma HeldWhileBehind(s: State, a: Poll, input: Input)
    requires Inv(s) && Unblocked(s, a, input) && !(s.doPoll && a.Error?)
    ensures var t, h := Iterated(s, a, input), Held(s, a, input);
            && (h.None? ==> t.dgram.None? && t.sent == s.sent)
            && (h.Some? ==>
                  && (t.dgram.Some? <==>
                        h.value.isL1 && !(s.doPoll && a.timeout)
                        && exists i :: 0 <= i < |t.contributors| && t.contributors[i].timestamp < h.value.time)
                  && (t.dgram.Some? ==> t.dgram == h && t.sent == s.sent)
                  && (t.dgram.None? ==>
                        |t.sent| == |s.sent| + 1 && t.sent[..|s.sent|] == s.sent && t.sent[|s.sent|].dgram == h.value))
  {
    var l := Looked(s, a, input);
    if l.dgram.Some? {
      BuildHolds(l, s.doPoll && a.timeout, input.moreDgrams);
    }
  }

  /** One handler of packets with one event each. */
  function Started(c: Contributor): State {
    State(None, true, false, true, [c], [], [])
  }

  /** p1 is read; then p2 has arrived when a datagram of p1's time is taken. */
  function LateRun(p1: seq<byte>, p2: seq<byte>, ts: nat): seq<Action> {
    [Arrive(0, p1), Iterate(Answer(false, false, [true]), Input(None, false, 0, [None])),
     Arrive(0, p2), Iterate(Answer(false, true, [false]), Input(Some(Dgram(ts, true)), false, 0, [None]))]
  }

  function Fresh(l: B.Layout): Contributor {
    Contributor(B.Handler(l, seq(B.MTU, _ => 0), 0, 0, 0, 0, [], 0), 0, false, true, None)
  }

  /** The event of p1, read by the handler. */
  function Waited(l: B.Layout, p1: seq<byte>): (c: Contributor)
    requires B.Single(l, p1)
    ensures ContributorOk(c)
  {
    var w := B.Waiting(l, p1);
    B.OneComing(w, p1);
    Read(Fresh(l).(handler := w))
  }

  lemma PacketReaches(l: B.Layout, p1: seq<byte>)
    requires B.Single(l, p1)
    ensures Initial(Started(Fresh(l)))
    ensures Step(Started(Fresh(l)), Arrive(0, p1)) == Some(Started(Fresh(l).(handler := B.Waiting(l, p1))))
    ensures ContributorOk(Fresh(l).(handler := B.Waiting(l, p1)))
  {
    var c := Fresh(l);
    assert ContributorOk(c);
    assert Applied(c, B.Arrives(p1)).handler.socket == [p1];
    assert [c][0 := Applied(c, B.Arrives(p1))] == [c.(handler := B.Waiting(l, p1))];
  }

  lemma PacketIsRead(l: B.Layout, p1: seq<byte>, a: Poll, input: Input)
    requires B.Single(l, p1) && a == Answer(false, false, [true]) && input == Input(None, false, 0, [None])
    ensures Step(Started(Fresh(l).(handler := B.Waiting(l, p1))), Iterate(a, input)) == Some(Started(Waited(l, p1)))
  {
    PacketReaches(l, p1);
    var c := Fresh(l).(handler := B.Waiting(l, p1));
    B.OneComing(c.handler, p1);
    var s := Started(c);
    assert !Blocks(c, None, true);
    assert Turn(c, None, true, None) == Waited(l, p1);
    assert TurnAll(s, a, input) == [Waited(l, p1)];
  }

  lemma NextReaches(c: Contributor, p2: seq<byte>)
    requires ContributorOk(c) && B.PacketOk(c.handler.layout, p2)
    ensures Step(Started(c), Arrive(0, p2)) == Some(Started(Applied(c, B.Arrives(p2))))
  {
    assert [c][0 := Applied(c, B.Arrives(p2))] == [Applied(c, B.Arrives(p2))];
  }

  lemma OneBuilt(s: State, d: Contributor, ts: nat)
    requires s.dgram == Some(Dgram(ts, true)) && s.contributors == [d] && ContributorOk(d) && d.timestamp == ts &&
             s.sent == []
    ensures Built(s, false, false).sent
         == [Sent(Dgram(ts, true), [Contribution(Some(B.Shown(d.handler)), d.stamp)], false)]
  {
    assert CopyAll(ts, [d]) == [Copied(ts, d)];
    assert AllReached(ts, [d]) && !AnyMissed(ts, [d]);
  }

  /** A datagram of the time of the one contribution is sent with it at once. */
  lemma DatagramIsSent(c: Contributor, ts: nat, a: Poll, input: Input)
    requires ContributorOk(c) && !c.skip && c.timestamp == ts
    requires a == Answer(false, true, [false]) && input == Input(Some(Dgram(ts, true)), false, 0, [None])
    ensures var d := Applied(c, B.ClearOlder(ts));
            var t := Step(Started(c), Iterate(a, input));
            t.Some? && t.value.sent == [Sent(Dgram(ts, true), [Contribution(Some(B.Shown(d.handler)), d.stamp)], false)]
  {
    var s, d := Started(c), Applied(c, B.ClearOlder(ts));
    assert !Blocks(c, Some(ts), false) && Turn(c, Some(ts), false, None) == d;
    assert TurnAll(s, a, input) == [d];
    OneBuilt(Looked(s, a, input), d, ts);
  }

  /** The run's first three steps. */
  lemma LateRunStarts(l: B.Layout, p1: seq<byte>, p2: seq<byte>, acts: seq<Action>, w: Contributor)
    requires B.Single(l, p1) && B.Single(l, p2) && acts == LateRun(p1, p2, B.FirstEvent(l, p1).timestamp)
    requires w == Waited(l, p1)
    ensures w.handler.layout == l && Initial(Started(Fresh(l)))
    ensures Exec(Step, Started(Fresh(l)), acts) == Step(Started(Applied(w, B.Arrives(p2))), acts[3])
  {
    B.OneComing(B.Waiting(l, p1), p1);
    PacketReaches(l, p1);
    PacketIsRead(l, p1, acts[1].answer, acts[1].input);
    NextReaches(w, p2);
    ExecFour(Step, Started(Fresh(l)), acts, Started(Fresh(l).(handler := B.Waiting(l, p1))), Started(w),
             Started(Applied(w, B.Arrives(p2))));
  }

  /** What the pointer shows after the clear. */
  lemma LaterIsShown(l: B.Layout, p1: seq<byte>, p2: seq<byte>, ts: nat, w: Contributor)
    requires B.Single(l, p1) && B.Single(l, p2) && ts == B.FirstEvent(l, p1).timestamp <= B.FirstEvent(l, p2).timestamp
    requires w == Waited(l, p1)
    ensures w.handler.layout == l && w.timestamp == ts && !w.skip
    ensures var d := Applied(Applied(w, B.Arrives(p2)), B.ClearOlder(ts));
            && d.stamp.Some? && d.stamp.value.event == B.FirstEvent(l, p1) &&
               B.Shown(d.handler) == B.FirstEvent(l, p2).payload
  {
    B.OneComing(B.Waiting(l, p1), p1);
    B.ClearShowsLater(l, p1, p2, ts);
  }

  /** A run with one handler and packets of one event where the contribution sent for
      the time of the first event holds the payload of the second. */
  lemma LaterPayloadIsSent(l: B.Layout, p1: seq<byte>, p2: seq<byte>, ts: nat)
    requires B.Single(l, p1) && B.Single(l, p2) && ts == B.FirstEvent(l, p1).timestamp <= B.FirstEvent(l, p2).timestamp
    ensures var s := Started(Fresh(l));
            var r := Exec(Step, s, LateRun(p1, p2, ts));
            && Initial(s) && r.Some? && |r.value.sent| == 1
            && var m := r.value.sent[0];
               m.dgram == Dgram(ts, true) && !m.dropped && |m.contributions| == 1 && m.contributions[0].stamp.Some?
               && m.contributions[0].stamp.value.event == B.FirstEvent(l, p1)
               && m.contributions[0].payload == Some(B.FirstEvent(l, p2).payload)
  {
    var acts, w := LateRun(p1, p2, ts), Waited(l, p1);
    LateRunStarts(l, p1, p2, acts, w);
    LaterIsShown(l, p1, p2, ts, w);
    DatagramIsSent(Applied(w, B.Arrives(p2)), ts, acts[3].answer, acts[3].input);
  }

  /** The first i contributors are now as in asked, the others as they were. */
  ghost predicate Through(now: seq<Contributor>, asked: seq<Contributor>, was: seq<Contributor>, i: nat) {
    && |now| == |asked| == |was| && i <= |was|
    && (forall k :: 0 <= k < i ==> now[k] == asked[k])
    && (forall k :: i <= k < |was| ==> now[k] == was[k])
  }

  lemma ThroughNext(now: seq<Contributor>, asked: seq<Contributor>, was: seq<Contributor>, i: nat)
    requires Through(now, asked, was, i) && i < |was|
    ensures now[i] == was[i] && Through(now[i := asked[i]], asked, was, i + 1)
  {
  }

  lemma ThroughAll(now: seq<Contributor>, asked: seq<Contributor>, was: seq<Contributor>)
    requires Through(now, asked, was, |was|)
    ensures now == asked
  {
  }

  class Worker {
    var dgram: Option<Dgram>
    var doPoll: bool
    var skipPgp: bool
    var eventsPgp: bool
    var contributors: seq<Contributor>
    var sent: seq<Sent>
    ghost var received: seq<Dgram>

    ghost function View(): State
      reads this
    {
      State(dgram, doPoll, skipPgp, eventsPgp, contributors, sent, received)
    }

    constructor (layouts: seq<B.Layout>)
      requires forall i :: 0 <= i < |layouts| ==> B.LayoutOk(layouts[i])
      ensures Initial(View()) && Inv(View())
      ensures |contributors| == |layouts| && forall i :: 0 <= i < |layouts| ==> contributors[i] == Fresh(layouts[i])
    {
      dgram, doPoll, skipPgp, eventsPgp, sent, received := None, true, false, true, [], [];
      contributors := seq(|layouts|, i requires 0 <= i < |layouts| => Fresh(layouts[i]));
    }

    /** A datagram is taken if the driver has one and it is looked at. */
    method TakeDgram(pgp: bool, arrived: Option<Dgram>)
      requires OneAtATime(dgram, skipPgp, eventsPgp) && NoneLost(received, sent, dgram) && (pgp ==> eventsPgp)
      modifies this`dgram, this`eventsPgp, this`skipPgp, this`received
      ensures OneAtATime(dgram, skipPgp, eventsPgp) && NoneLost(received, sent, dgram)
      ensures dgram == if old(skipPgp) || pgp then arrived else old(dgram)
      ensures skipPgp == (old(skipPgp) && arrived.None?)
      ensures eventsPgp == (old(eventsPgp) && !((old(skipPgp) || pgp) && arrived.Some?))
      ensures received == if (old(skipPgp) || pgp) && arrived.Some? then old(received) + [arrived.value]
              else old(received)
      ensures old(dgram.Some?) ==> dgram == old(dgram)
    {
      if skipPgp || pgp {
        dgram := arrived;
        if dgram.Some? {
          eventsPgp := false;
          skipPgp := false;
          received := received + [dgram.value];
        }
      }
    }

    /** Every handler in turn: clear, if a datagram is held, then next, if it has data. */
    method TakeBlds(reported: seq<bool>, late: seq<Option<seq<byte>>>)
      requires AllOk(contributors) && |reported| == |late| == |contributors|
      requires forall i :: 0 <= i < |late| && Blocks(contributors[i], Time(dgram), reported[i]) ==>
                 late[i].Some? && B.PacketOk(contributors[i].handler.layout, late[i].value)
      modifies this`contributors
      ensures |contributors| == |late| && AllOk(old(contributors))
      ensures forall i :: 0 <= i < |late| ==>
              contributors[i] == Turn(old(contributors[i]), Time(dgram), reported[i], late[i])
    {
      for i := 0 to |contributors|
        invariant |contributors| == |late| && contributors[i..] == old(contributors[i..])
        invariant forall k :: 0 <= k < i ==>
                  contributors[k] == Turn(old(contributors[k]), Time(dgram), reported[k], late[k])
      {
        ghost var before := contributors;
        var c := contributors[i];
        assert c == old(contributors[i]) by { assert contributors[i..][0] == old(contributors[i..])[0]; }
        if dgram.Some? {
          c := Applied(c, B.ClearOlder(dgram.value.time));
        }
        if c.skip || reported[i] {
          if B.Coming(c.handler) == [] {
            Arrived(c.handler, late[i].value);
            c := Applied(c, B.Arrives(late[i].value));
          }
          c := Read(c);
        }
        contributors := contributors[i := c];
        assert contributors[i + 1..] == before[i..][1..];
      }
    }

    /** Have contributor i looked at again. */
    method AskFor(w: Which, i: nat)
      requires i < |contributors|
      modifies this`contributors, this`doPoll
      ensures contributors == old(contributors)[i := Ask(w, old(contributors[i]))]
      ensures doPoll == (old(doPoll) || (Wanted(w, old(contributors[i])) && !B.Ready(old(contributors[i].handler))))
    {
      var c := contributors[i];
      if Wanted(w, c) {
        if B.Ready(c.handler) {
          c := c.(skip := true);
        } else {
          c := c.(asked := true);
          doPoll := true;
        }
      }
      contributors := contributors[i := c];
    }

    /** Ask for every contribution that is behind; ready when there is none. */
    method AskOlder(ts: nat) returns (ready: bool)
      modifies this`contributors, this`doPoll
      ensures contributors == AskAll(Older(ts), old(contributors))
      ensures doPoll == (old(doPoll) || Polls(Older(ts), old(contributors)))
      ensures ready == AllReached(ts, old(contributors))
    {
      ready := true;
      ghost var was, asked := contributors, AskAll(Older(ts), contributors);
      for i := 0 to |contributors|
        invariant Through(contributors, asked, was, i)
        invariant doPoll == (old(doPoll) || Polls(Older(ts), was[..i])) && ready == AllReached(ts, was[..i])
      {
        PollsOneMore(Older(ts), was, i);
        assert was[..i + 1] == was[..i] + [was[i]];
        ThroughNext(contributors, asked, was, i);
        if contributors[i].timestamp < ts {
          ready := false;
        }
        AskFor(Older(ts), i);
      }
      ThroughAll(contributors, asked, was);
      assert was[..|was|] == was;
    }

    /** Copy the contributions of the datagram's time, and ask for the next ones. */
    method Contribute(ts: nat) returns (contributions: seq<Contribution>, missed: bool)
      requires HandlersOk(contributors)
      modifies this`contributors, this`doPoll
      ensures contributors == AskAll(Equal(ts), old(contributors))
      ensures doPoll == (old(doPoll) || Polls(Equal(ts), old(contributors)))
      ensures contributions == CopyAll(ts, old(contributors)) && missed == AnyMissed(ts, old(contributors))
    {
      contributions, missed := [], false;
      ghost var was, asked, copies := contributors, AskAll(Equal(ts), contributors), CopyAll(ts, contributors);
      for i := 0 to |contributors|
        invariant Through(contributors, asked, was, i) && contributions == copies[..i]
        invariant doPoll == (old(doPoll) || Polls(Equal(ts), was[..i])) && missed == AnyMissed(ts, was[..i])
      {
        PollsOneMore(Equal(ts), was, i);
        MissedOneMore(ts, was, i);
        ThroughNext(contributors, asked, was, i);
        var c := CopyOne(i, ts);
        contributions := contributions + [c];
        missed := missed || c.payload.None?;
      }
      ThroughAll(contributors, asked, was);
      assert was[..|was|] == was && copies[..|was|] == copies;
    }

    method CopyOne(i: nat, ts: nat) returns (c: Contribution)
      requires i < |contributors| && B.Ok(contributors[i].handler)
      modifies this`contributors, this`doPoll
      ensures c == Copied(ts, old(contributors[i]))
      ensures contributors == old(contributors)[i := Ask(Equal(ts), old(contributors[i]))]
      ensures doPoll == (old(doPoll) || (Wanted(Equal(ts), old(contributors[i])) &&
              !B.Ready(old(contributors[i].handler))))
    {
      c := Contribution(None, contributors[i].stamp);
      if contributors[i].timestamp == ts {
        c := c.(payload := Some(B.Shown(contributors[i].handler)));
        AskFor(Equal(ts), i);
      }
    }

    /** Ask for the next datagram. */
    method AskDgram(more: bool)
      modifies this`skipPgp, this`eventsPgp, this`doPoll
      ensures skipPgp == (old(skipPgp) || more) && eventsPgp == (old(eventsPgp) || !more)
      ensures doPoll == (old(doPoll) || !more)
    {
      if more {
        skipPgp := true;
      } else {
        eventsPgp := true;
        doPoll := true;
      }
    }

    method Send(s: Sent, more: bool)
      modifies this`sent, this`dgram, this`skipPgp, this`eventsPgp, this`doPoll
      ensures View() == SendOff(old(View()), s, more)
    {
      sent := sent + [s];
      AskDgram(more);
      dgram := None;
    }

    /** With a datagram held. */
    method Build(timedOut: bool, more: bool)
      requires dgram.Some? && AllOk(contributors)
      modifies this`sent, this`dgram, this`skipPgp, this`eventsPgp, this`doPoll, this`contributors
      ensures View() == Built(old(View()), timedOut, more)
    {
      var d := dgram.value;
      ghost var cs := contributors;
      var ready := AskOlder(d.time);
      AskedOk(Older(d.time), cs);
      if !d.isL1 {
        Send(Sent(d, [], false), more);
      } else if ready || timedOut {
        CopiesAsked(d.time, Older(d.time), cs);
        var contributions, missed := Contribute(d.time);
        Send(Sent(d, contributions, missed), more);
      }
    }

    /** With none. After a timeout old events are dropped everywhere. */
    method AskForOne(timedOut: bool, more: bool, clock: nat)
      requires AllOk(contributors)
      modifies this`skipPgp, this`eventsPgp, this`doPoll, this`contributors
      ensures View() == AskedForOne(old(View()), timedOut, more, clock)
    {
      AskDgram(more);
      if timedOut {
        ClearThenAsk(clock);
      }
    }

    method ClearThenAsk(clock: nat)
      requires AllOk(contributors)
      modifies this`doPoll, this`contributors
      ensures AllOk(old(contributors))
      ensures contributors == AskAll(All, ClearAll(clock, old(contributors)))
      ensures doPoll == (old(doPoll) || Polls(All, ClearAll(clock, old(contributors))))
    {
      ghost var was, cs := contributors, ClearAll(clock, contributors);
      ghost var asked := AskAll(All, cs);
      for i := 0 to |contributors|
        invariant Through(contributors, asked, was, i)
        invariant doPoll == (old(doPoll) || Polls(All, cs[..i]))
      {
        PollsOneMore(All, cs, i);
        ThroughNext(contributors, asked, was, i);
        ClearAsk(i, clock, cs[i]);
      }
      ThroughAll(contributors, asked, was);
      assert cs[..|cs|] == cs;
    }

    method ClearAsk(i: nat, clock: nat, ghost c: Contributor)
      requires i < |contributors| && ContributorOk(contributors[i])
      requires c == Applied(contributors[i], B.ClearOlder(clock))
      modifies this`doPoll, this`contributors
      ensures contributors == old(contributors)[i := Ask(All, c)]
      ensures doPoll == (old(doPoll) || !B.Ready(c.handler))
    {
      contributors := contributors[i := Applied(contributors[i], B.ClearOlder(clock))];
      AskFor(All, i);
    }

    /** Look at the driver, then at the handlers. */
    method Look(answer: Poll, input: Input)
      requires Inv(View()) && Fits(View(), answer) && Unblocked(View(), answer, input) && !(doPoll && answer.Error?)
      modifies this`doPoll, this`dgram, this`eventsPgp, this`skipPgp, this`received, this`contributors
      ensures View() == Looked(old(View()), answer, input)
    {
      var reported := if doPoll then answer.bld else seq(|contributors|, _ => false);
      var pgp := doPoll && answer.pgp;
      doPoll := false;
      TakeDgram(pgp, input.dgram);
      TakeBlds(reported, input.late);
      assert contributors == TurnAll(old(View()), answer, input);
    }

    /** One iteration of the loop. */
    method Iterate(answer: Poll, input: Input)
      requires Inv(View()) && Fits(View(), answer) && Unblocked(View(), answer, input)
      modifies this
      ensures View() == Iterated(old(View()), answer, input) && Inv(View())
    {
      IteratedKeeps(View(), answer, input);
      if doPoll && answer.Error? {
        return;
      }
      var timedOut := doPoll && answer.timeout;
      Look(answer, input);
      if dgram.Some? {
        Build(timedOut, input.moreDgrams);
      } else {
        AskForOne(timedOut, input.moreDgrams, input.clock);
      }
    }

    /** A packet reaches the socket of handler i. */
    method Arrive(i: nat, packet: seq<byte>)
      requires Inv(View()) && i < |contributors| && B.PacketOk(contributors[i].handler.layout, packet)
      modifies this`contributors
      ensures Inv(View()) && Step(old(View()), Action.Arrive(i, packet)) == Some(View())
    {
      ArriveKeeps(View(), i, packet);
      contributors := contributors[i := Applied(contributors[i], B.Arrives(packet))];
    }
  }

  lemma PollsOneMore(w: Which, cs: seq<Contributor>, i: nat)
    requires i < |cs|
    ensures Polls(w, cs[..i + 1]) <==> Polls(w, cs[..i]) || (Wanted(w, cs[i]) && !B.Ready(cs[i].handler))
  {
    assert cs[..i + 1] == cs[..i] + [cs[i]];
  }

  lemma MissedOneMore(ts: nat, cs: seq<Contributor>, i: nat)
    requires i < |cs|
    ensures AnyMissed(ts, cs[..i + 1]) <==> AnyMissed(ts, cs[..i]) || cs[i].timestamp != ts
  {
    assert cs[..i + 1] == cs[..i] + [cs[i]];
  }

  lemma AskedOk(w: Which, cs: seq<Contributor>)
    requires AllOk(cs)
    ensures AllOk(AskAll(w, cs))
  {
  }

  /** Asking changes neither what is copied nor what is missed. */
  lemma CopiesAsked(ts: nat, w: Which, cs: seq<Contributor>)
    requires AllOk(cs)
    ensures AllOk(AskAll(w, cs)) && CopyAll(ts, AskAll(w, cs)) == CopyAll(ts, cs)
    ensures AnyMissed(ts, AskAll(w, cs)) == AnyMissed(ts, cs)
  {
    var asked := AskAll(w, cs);
    assert forall i :: 0 <= i < |cs| ==> asked[i].timestamp == cs[i].timestamp;
  }
}
