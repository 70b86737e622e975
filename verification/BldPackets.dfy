/** The packets that the handler of Bld reads, byte by byte: a header with the first
    event's timestamp and pulse id, its payload, and then for each following event a word
    with 20 bits of timestamp offset below 12 bits of pulse id offset, and its payload. */
module BldPackets {
  import Bits
  import B = Bld

  type byte = B.byte

  const WORD32: nat := 0x1_0000_0000
  const WORD64: nat := 0x1_0000_0000_0000_0000

  /** Little-endian words. */
  function Four(n: nat): (r: seq<byte>)
    requires n < WORD32
    ensures |r| == 4
  {
    [n % 0x100, n / 0x100 % 0x100, n / 0x1_0000 % 0x100, n / 0x100_0000]
  }

  function Eight(n: nat): (r: seq<byte>)
    requires n < WORD64
    ensures |r| == 8
  {
    Four(n % WORD32) + Four(n / WORD32)
  }

  lemma NumberOfFour(a: byte, b: byte, c: byte, d: byte, rest: seq<byte>)
    ensures B.Number([a, b, c, d] + rest) == a + 0x100 * b + 0x1_0000 * c + 0x100_0000 * d + WORD32 * B.Number(rest)
  {
    var s := [a, b, c, d] + rest;
    assert s[1..] == [b, c, d] + rest && s[1..][1..] == [c, d] + rest && s[1..][1..][1..] == [d] + rest;
    assert s[1..][1..][1..][1..] == rest;
    assert B.Number(s[1..][1..][1..]) == d + 0x100 * B.Number(rest);
    assert B.Number(s[1..][1..]) == c + 0x100 * B.Number(s[1..][1..][1..]);
    assert B.Number(s[1..]) == b + 0x100 * B.Number(s[1..][1..]);
  }

  lemma Digits(n: nat)
    requires n < WORD32
    ensures n == n % 0x100 + 0x100 * (n / 0x100 % 0x100) + 0x1_0000 * (n / 0x1_0000 % 0x100)
                 + 0x100_0000 * (n / 0x100_0000)
  {
  }

  lemma FourBack(n: nat, rest: seq<byte>)
    requires n < WORD32
    ensures B.Number(Four(n) + rest) == n + WORD32 * B.Number(rest)
  {
    Digits(n);
    NumberOfFour(n % 0x100, n / 0x100 % 0x100, n / 0x1_0000 % 0x100, n / 0x100_0000, rest);
  }

  lemma WordBack(n: nat)
    requires n < WORD32
    ensures B.Number(Four(n)) == n
  {
    FourBack(n, []);
    assert Four(n) + [] == Four(n);
  }

  lemma EightBack(n: nat)
    requires n < WORD64
    ensures B.Number(Eight(n)) == n
  {
    FourBack(n % WORD32, Four(n / WORD32));
    WordBack(n / WORD32);
  }

  /** Bytes at a place. */
  function Put(s: seq<byte>, at: nat, bytes: seq<byte>): (r: seq<byte>)
    requires at + |bytes| <= |s|
    ensures |r| == |s| && r[at..at + |bytes|] == bytes
    ensures forall i, j :: 0 <= i <= j <= |s| && (j <= at || at + |bytes| <= i) ==> r[i..j] == s[i..j]
  {
    s[..at] + bytes + s[at + |bytes|..]
  }

  /** The two numbers of the header do not overlap. */
  predicate Apart(l: B.Layout) {
    B.LayoutOk(l) && (l.timestampPos + 8 <= l.pulseIdPos || l.pulseIdPos + 8 <= l.timestampPos)
  }

  /** A header, whatever else is in it. */
  function Header(l: B.Layout, filler: seq<byte>, timestamp: nat, pulseId: nat): (r: seq<byte>)
    requires Apart(l) && |filler| == l.headerSize && pulseId < WORD64
    ensures |r| == l.headerSize
  {
    Put(Put(filler, l.timestampPos, Eight((timestamp + l.correction) % WORD64)), l.pulseIdPos, Eight(pulseId))
  }

  /** How far an event is from the first one of its packet. */
  function Later(first: nat, x: nat): nat {
    (x - first) % WORD64
  }

  predicate Follows(l: B.Layout, first: B.Event, e: B.Event) {
    && |e.payload| == l.payloadSize && e.timestamp < WORD64 && e.pulseId < WORD64
    && Later(first.timestamp, e.timestamp) < 0x10_0000 && Later(first.pulseId, e.pulseId) < 0x1000
  }

  /** Events that one packet can hold. */
  predicate Packable(l: B.Layout, events: seq<B.Event>) {
    events != [] && forall i :: 0 <= i < |events| ==> Follows(l, events[0], events[i])
  }

  function Offsets(first: B.Event, e: B.Event): (n: nat)
    requires Later(first.timestamp, e.timestamp) < 0x10_0000 && Later(first.pulseId, e.pulseId) < 0x1000
    ensures n < WORD32
  {
    Later(first.timestamp, e.timestamp) + 0x10_0000 * Later(first.pulseId, e.pulseId)
  }

  predicate AllFollow(l: B.Layout, first: B.Event, events: seq<B.Event>) {
    forall i :: 0 <= i < |events| ==> Follows(l, first, events[i])
  }

  function Following(l: B.Layout, first: B.Event, events: seq<B.Event>): seq<byte>
    requires AllFollow(l, first, events)
  {
    if events == [] then [] else Four(Offsets(first, events[0])) + events[0].payload + Following(l, first, events[1..])
  }

  function Encode(l: B.Layout, filler: seq<byte>, events: seq<B.Event>): seq<byte>
    requires Apart(l) && |filler| == l.headerSize && Packable(l, events)
  {
    Header(l, filler, events[0].timestamp, events[0].pulseId) + events[0].payload + Following(l, events[0], events[1..])
  }

  lemma OffsetBack(first: nat, x: nat)
    requires x < WORD64
    ensures (first + Later(first, x)) % WORD64 == x
  {
    var q := (x - first) / WORD64;
    assert x - first == q * WORD64 + Later(first, x);
    Bits.ModUnique(first + Later(first, x), WORD64, -q, x);
  }

  lemma CorrectionBack(timestamp: nat, correction: nat)
    requires timestamp < WORD64
    ensures ((timestamp + correction) % WORD64 - correction) % WORD64 == timestamp
  {
    var r, q := (timestamp + correction) % WORD64, (timestamp + correction) / WORD64;
    assert timestamp + correction == q * WORD64 + r;
    Bits.ModUnique(r - correction, WORD64, -q, timestamp);
  }

  lemma OffsetsApart(t: nat, p: nat)
    requires t < 0x10_0000 && p < 0x1000
    ensures (t + 0x10_0000 * p) % 0x10_0000 == t && (t + 0x10_0000 * p) / 0x10_0000 % 0x1000 == p
  {
  }

  /** What the header gives back. */
  lemma HeaderBack(l: B.Layout, filler: seq<byte>, events: seq<B.Event>)
    requires Apart(l) && |filler| == l.headerSize && Packable(l, events) && |Encode(l, filler, events)| <= B.MTU
    ensures var p := Encode(l, filler, events);
            && B.PacketOk(l, p) && B.FirstEvent(l, p) == events[0]
  {
    var p, first := Encode(l, filler, events), events[0];
    var t := (first.timestamp + l.correction) % WORD64;
    assert Follows(l, first, first);
    var h := Header(l, filler, first.timestamp, first.pulseId);
    assert p[..l.headerSize] == h;
    HeaderParts(l, filler, first.timestamp, first.pulseId);
    assert p[l.timestampPos..l.timestampPos + 8] == h[l.timestampPos..l.timestampPos + 8];
    assert p[l.pulseIdPos..l.pulseIdPos + 8] == h[l.pulseIdPos..l.pulseIdPos + 8];
    EightBack(t);
    EightBack(first.pulseId);
    CorrectionBack(first.timestamp, l.correction);
  }

  lemma HeaderParts(l: B.Layout, filler: seq<byte>, timestamp: nat, pulseId: nat)
    requires Apart(l) && |filler| == l.headerSize && pulseId < WORD64
    ensures var h := Header(l, filler, timestamp, pulseId);
            && h[l.timestampPos..l.timestampPos + 8] == Eight((timestamp + l.correction) % WORD64)
            && h[l.pulseIdPos..l.pulseIdPos + 8] == Eight(pulseId)
  {
  }

  /** One following event, read where it is. */
  lemma EventBack(l: B.Layout, packet: seq<byte>, at: nat, first: B.Event, e: B.Event, rest: seq<byte>)
    requires B.LayoutOk(l) && B.PacketOk(l, packet) && Follows(l, first, e) && at <= |packet|
    requires B.HeaderTimestamp(l, packet) == first.timestamp && B.HeaderPulseId(l, packet) == first.pulseId
    requires packet[at..] == Four(Offsets(first, e)) + e.payload + rest
    ensures at + 4 + l.payloadSize <= |packet| && packet[at + 4 + l.payloadSize..] == rest
    ensures B.EventAt(l, packet, at) == e
  {
    var tail := packet[at..];
    assert packet[at..at + 4] == tail[..4] == Four(Offsets(first, e));
    assert packet[at + 4..at + 4 + l.payloadSize] == tail[4..4 + l.payloadSize] == e.payload;
    assert packet[at + 4 + l.payloadSize..] == tail[4 + l.payloadSize..] == rest;
    WordBack(Offsets(first, e));
    OffsetsApart(Later(first.timestamp, e.timestamp), Later(first.pulseId, e.pulseId));
    OffsetBack(first.timestamp, e.timestamp);
    OffsetBack(first.pulseId, e.pulseId);
  }

  lemma {:induction false} FollowingBack(l: B.Layout, packet: seq<byte>, at: nat, first: B.Event, events: seq<B.Event>)
    requires B.LayoutOk(l) && B.PacketOk(l, packet) && AllFollow(l, first, events) && at <= |packet|
    requires B.HeaderTimestamp(l, packet) == first.timestamp && B.HeaderPulseId(l, packet) == first.pulseId
    requires packet[at..] == Following(l, first, events)
    ensures B.EventsFrom(l, packet, at) == events
    decreases |events|
  {
    if events != [] {
      EventBack(l, packet, at, first, events[0], Following(l, first, events[1..]));
      FollowingBack(l, packet, at + 4 + l.payloadSize, first, events[1..]);
    } else {
      assert |packet| == at;
    }
  }

  /** Reading a packet gives back the events that were put into it. */
  lemma RoundTrip(l: B.Layout, filler: seq<byte>, events: seq<B.Event>)
    requires Apart(l) && |filler| == l.headerSize && Packable(l, events) && |Encode(l, filler, events)| <= B.MTU
    ensures B.PacketOk(l, Encode(l, filler, events)) && B.Events(l, Encode(l, filler, events)) == events
  {
    HeaderBack(l, filler, events);
    var p, at := Encode(l, filler, events), l.headerSize + l.payloadSize;
    assert Follows(l, events[0], events[0]);
    assert p[at..] == Following(l, events[0], events[1..]);
    FollowingBack(l, p, at, events[0], events[1..]);
  }

  /** What a handler's owner and the network do. */
  datatype Call = Arrive(filler: seq<byte>, events: seq<B.Event>) | Next | Clear(ts: nat)

  predicate CallOk(l: B.Layout, c: Call)
    requires Apart(l)
  {
    c.Arrive? ==> |c.filler| == l.headerSize && Packable(l, c.events) && |Encode(l, c.filler, c.events)| <= B.MTU
  }

  /** The handler as a queue of events: clear drops those older than ts at its front. */
  function Queued(q: seq<B.Event>, c: Call): seq<B.Event> {
    match c
    case Arrive(_, events) => q + events
    case Next => if q == [] then q else q[1..]
    case Clear(ts) => B.DropOlder(q, ts)
  }

  /** The handler on the bytes. next waits if there is nothing to read. */
  function Handled(h: B.Handler, c: Call): B.Handler
    requires B.Ok(h) && Apart(h.layout) && CallOk(h.layout, c)
  {
    match c
    case Arrive(filler, events) =>
      RoundTrip(h.layout, filler, events);
      B.After(h, B.Arrives(Encode(h.layout, filler, events)))
    case Next => if B.Coming(h) == [] then h else B.NextRead(h)
    case Clear(ts) => B.After(h, B.ClearOlder(ts))
  }

  /** Every call does to the handler what it does to the queue; and next gives the first
      event of the queue: its timestamp, pulse id and payload. */
  lemma CallRefines(h: B.Handler, q: seq<B.Event>, c: Call)
    requires B.Ok(h) && Apart(h.layout) && CallOk(h.layout, c) && B.Coming(h) == q
    ensures var t := Handled(h, c);
            && B.Ok(t) && t.layout == h.layout && B.Coming(t) == Queued(q, c)
            && (c.Next? && q != [] ==> B.Event(B.Coming(h)[0].timestamp, t.pulseId, B.Shown(t)) == q[0])
  {
    match c
    case Arrive(filler, events) => ArriveRefines(h, filler, events);
    case Next =>
      if q != [] {
        NextRefines(h);
      }
    case Clear(ts) => B.ClearDropsOlder(h, ts);
  }

  lemma ArriveRefines(h: B.Handler, filler: seq<byte>, events: seq<B.Event>)
    requires B.Ok(h) && Apart(h.layout) && CallOk(h.layout, Arrive(filler, events))
    ensures var t := Handled(h, Arrive(filler, events));
            B.Ok(t) && t.layout == h.layout && B.Coming(t) == B.Coming(h) + events
  {
    var p := Encode(h.layout, filler, events);
    RoundTrip(h.layout, filler, events);
    B.EventsOfAppend(h.layout, h.socket, p);
    ComingMore(h, p, events);
  }

  lemma ComingMore(h: B.Handler, p: seq<byte>, events: seq<B.Event>)
    requires B.Ok(h) && B.PacketOk(h.layout, p) && B.Events(h.layout, p) == events
    requires B.EventsOf(h.layout, h.socket + [p]) == B.EventsOf(h.layout, h.socket) + events
    ensures var t := B.After(h, B.Arrives(p)); B.Ok(t) && B.Coming(t) == B.Coming(h) + events
  {
    var t := B.After(h, B.Arrives(p));
    assert B.Buffered(t) == B.Buffered(h);
  }

  lemma NextRefines(h: B.Handler)
    requires B.Ok(h) && Apart(h.layout) && B.Coming(h) != []
    ensures var t := Handled(h, Next);
            && B.Ok(t) && t.layout == h.layout && B.Coming(t) == B.Coming(h)[1..]
            && B.Event(B.Coming(h)[0].timestamp, t.pulseId, B.Shown(t)) == B.Coming(h)[0]
  {
    B.NextIsFirst(h);
    B.FilledKeeps(h);
  }

  predicate CallsOk(l: B.Layout, calls: seq<Call>)
    requires Apart(l)
  {
    forall i :: 0 <= i < |calls| ==> CallOk(l, calls[i])
  }

  /** The events that the calls of next take from the queue. */
  function Taken(q: seq<B.Event>, calls: seq<Call>): seq<B.Event>
    decreases |calls|
  {
    if calls == [] then []
    else (if calls[0].Next? && q != [] then [q[0]] else []) + Taken(Queued(q, calls[0]), calls[1..])
  }

  /** The events that they give: the timestamp returned, the pulse id noted, and the
      bytes that the payload pointer shows. */
  function Given(h: B.Handler, calls: seq<Call>): seq<B.Event>
    requires B.Ok(h) && Apart(h.layout) && CallsOk(h.layout, calls)
    decreases |calls|
  {
    if calls == [] then []
    else
      CallRefines(h, B.Coming(h), calls[0]);
      var t := Handled(h, calls[0]);
      (if calls[0].Next? && B.Coming(h) != [] then [B.Event(B.Coming(h)[0].timestamp, t.pulseId, B.Shown(t))] else [])
      + Given(t, calls[1..])
  }

  /** Over any arrivals of packets and calls of next and clear, next gives the events put
      into the packets, in order, without those that clear found older at the front. */
  lemma {:induction false} RunRefines(h: B.Handler, calls: seq<Call>)
    requires B.Ok(h) && Apart(h.layout) && CallsOk(h.layout, calls)
    ensures Given(h, calls) == Taken(B.Coming(h), calls)
    decreases |calls|
  {
    if calls != [] {
      CallRefines(h, B.Coming(h), calls[0]);
      RunRefines(Handled(h, calls[0]), calls[1..]);
    }
  }
}
