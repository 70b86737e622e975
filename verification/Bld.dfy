/** The multicast data handler of psdaq/drp/BldDetectorSlow.cc: packets of several
    events, each after the first with offsets to the header's timestamp and pulse id. */
module Bld {
  import Bits

  type byte = Bits.byte

  const MTU: nat := 9000

  datatype Event = Event(timestamp: nat, pulseId: nat, payload: seq<byte>)

  /** Where things are in a packet, and the correction of its timestamp. */
  datatype Layout = Layout(timestampPos: nat, pulseIdPos: nat, headerSize: nat, payloadSize: nat, correction: nat)

  predicate LayoutOk(l: Layout) {
    l.timestampPos + 8 <= l.headerSize && l.pulseIdPos + 8 <= l.headerSize && l.headerSize + l.payloadSize <= MTU
  }

  /** A packet holds at least the header and the first event's payload. */
  predicate PacketOk(l: Layout, packet: seq<byte>) {
    l.headerSize + l.payloadSize <= |packet| <= MTU
  }

  /** A little-endian number. */
  function Number(s: seq<byte>): nat {
    if s == [] then 0 else s[0] as int + 256 * Number(s[1..])
  }

  function HeaderTimestamp(l: Layout, packet: seq<byte>): nat
    requires LayoutOk(l) && PacketOk(l, packet)
  {
    (Number(packet[l.timestampPos..l.timestampPos + 8]) - l.correction) % 0x1_0000_0000_0000_0000
  }

  function HeaderPulseId(l: Layout, packet: seq<byte>): nat
    requires LayoutOk(l) && PacketOk(l, packet)
  {
    Number(packet[l.pulseIdPos..l.pulseIdPos + 8])
  }

  function FirstEvent(l: Layout, packet: seq<byte>): Event
    requires LayoutOk(l) && PacketOk(l, packet)
  {
    Event(HeaderTimestamp(l, packet), HeaderPulseId(l, packet), packet[l.headerSize..l.headerSize + l.payloadSize])
  }

  /** A following event: 20 bits of timestamp offset and 12 of pulse id offset. */
  function EventAt(l: Layout, packet: seq<byte>, at: nat): Event
    requires LayoutOk(l) && PacketOk(l, packet) && at + 4 + l.payloadSize <= |packet|
  {
    var word := Number(packet[at..at + 4]);
    Event((HeaderTimestamp(l, packet) + word % 0x10_0000) % 0x1_0000_0000_0000_0000,
          (HeaderPulseId(l, packet) + word / 0x10_0000 % 0x1000) % 0x1_0000_0000_0000_0000,
          packet[at + 4..at + 4 + l.payloadSize])
  }

  function EventsFrom(l: Layout, packet: seq<byte>, at: nat): seq<Event>
    requires LayoutOk(l) && PacketOk(l, packet)
    decreases |packet| - at
  {
    if at + l.payloadSize + 4 > |packet| then []
    else [EventAt(l, packet, at)] + EventsFrom(l, packet, at + 4 + l.payloadSize)
  }

  /** The events of a packet. */
  function Events(l: Layout, packet: seq<byte>): seq<Event>
    requires LayoutOk(l) && PacketOk(l, packet)
  {
    [FirstEvent(l, packet)] + EventsFrom(l, packet, l.headerSize + l.payloadSize)
  }

  predicate AllOk(l: Layout, packets: seq<seq<byte>>) {
    LayoutOk(l) && forall i :: 0 <= i < |packets| ==> PacketOk(l, packets[i])
  }

  function EventsOf(l: Layout, packets: seq<seq<byte>>): seq<Event>
    requires AllOk(l, packets)
  {
    if packets == [] then [] else Events(l, packets[0]) + EventsOf(l, packets[1..])
  }

  /** The events not read yet of the packet in the buffer. */
  function Unread(l: Layout, packet: seq<byte>, position: nat): seq<Event>
    requires LayoutOk(l) && (packet == [] || PacketOk(l, packet))
  {
    if position + l.payloadSize + 4 > |packet| then []
    else if position == 0 then Events(l, packet) else EventsFrom(l, packet, position)
  }

  /** What is left when the events older than ts at the front are dropped. */
  function DropOlder(events: seq<Event>, ts: nat): seq<Event> {
    if events != [] && events[0].timestamp < ts then DropOlder(events[1..], ts) else events
  }

  /** That is the longest prefix of older events, and nothing more. */
  lemma {:induction false} DropOlderIsLongest(events: seq<Event>, ts: nat)
    ensures var k := |events| - |DropOlder(events, ts)|;
            && 0 <= k && DropOlder(events, ts) == events[k..]
            && (forall i :: 0 <= i < k ==> events[i].timestamp < ts)
            && (k < |events| ==> events[k].timestamp >= ts)
  {
    if events != [] && events[0].timestamp < ts {
      DropOlderIsLongest(events[1..], ts);
    }
  }

  lemma {:induction false} EventsOfAppend(l: Layout, packets: seq<seq<byte>>, packet: seq<byte>)
    requires AllOk(l, packets) && PacketOk(l, packet)
    ensures AllOk(l, packets + [packet]) && EventsOf(l, packets + [packet]) == EventsOf(l, packets) + Events(l, packet)
  {
    var all := packets + [packet];
    if packets == [] {
      assert all[1..] == [];
    } else {
      EventsOfAppend(l, packets[1..], packet);
      assert all[1..] == packets[1..] + [packet];
      assert all[0] == packets[0];
    }
  }

  /** A handler's fields. payloadAt is m_payload as an offset in the buffer, socket holds
      the packets that reached it and were not received, and received counts those that were. */
  datatype Handler = Handler(
    layout: Layout, buffer: seq<byte>, bufferSize: nat, position: nat, payloadAt: nat, pulseId: nat,
    socket: seq<seq<byte>>, received: nat)

  predicate Ok(h: Handler) {
    && AllOk(h.layout, h.socket) && h.bufferSize <= |h.buffer| == MTU
    && (h.bufferSize == 0 || PacketOk(h.layout, h.buffer[..h.bufferSize]))
    && (h.position == 0 || h.layout.headerSize + h.layout.payloadSize <= h.position <= h.bufferSize)
    && h.payloadAt + h.layout.payloadSize <= MTU
    && (h.position > 0 ==> h.position == h.payloadAt + h.layout.payloadSize)
  }

  function Packet(h: Handler): seq<byte>
    requires Ok(h)
  {
    h.buffer[..h.bufferSize]
  }

  function Buffered(h: Handler): seq<Event>
    requires Ok(h)
  {
    Unread(h.layout, Packet(h), h.position)
  }

  /** All events to come, from the buffer and then from the socket. */
  function Coming(h: Handler): seq<Event>
    requires Ok(h)
  {
    Buffered(h) + EventsOf(h.layout, h.socket)
  }

  /** The bytes that the payload pointer shows. */
  function Shown(h: Handler): seq<byte>
    requires Ok(h)
  {
    h.buffer[h.payloadAt..h.payloadAt + h.layout.payloadSize]
  }

  /** The guard of the branch that receives a packet, at its negation: ready(). */
  predicate Ready(h: Handler) {
    h.position + h.layout.payloadSize + 4 <= h.bufferSize
  }

  lemma ReadyIsBuffered(h: Handler)
    requires Ok(h)
    ensures Ready(h) <==> Buffered(h) != []
  {
  }

  /** recv over the old packet. */
  function Refilled(h: Handler): Handler
    requires Ok(h) && h.socket != []
  {
    var q := h.socket[0];
    h.(buffer := q + h.buffer[|q|..], bufferSize := |q|, position := 0, socket := h.socket[1..],
      received := h.received + 1)
  }

  lemma RefillKeeps(h: Handler)
    requires Ok(h) && !Ready(h) && h.socket != []
    ensures Ok(Refilled(h)) && Ready(Refilled(h)) && Coming(Refilled(h)) == Coming(h)
    ensures Packet(Refilled(h)) == h.socket[0] && Buffered(Refilled(h)) == Events(h.layout, h.socket[0])
  {
    assert Packet(Refilled(h)) == h.socket[0];
  }

  /** Reading the event at the position: the payload pointer moves to it. */
  function ReadOne(h: Handler): Handler
    requires Ok(h) && Ready(h)
  {
    var at := if h.position == 0 then h.layout.headerSize else h.position + 4;
    h.(payloadAt := at, position := at + h.layout.payloadSize, pulseId := Buffered(h)[0].pulseId)
  }

  lemma ReadOneShows(h: Handler)
    requires Ok(h) && Ready(h)
    ensures Buffered(h) != [] && Ok(ReadOne(h)) && ReadOne(h).position > 0
    ensures Shown(ReadOne(h)) == Buffered(h)[0].payload && ReadOne(h).pulseId == Buffered(h)[0].pulseId
  {
    SliceOfPrefix(h.buffer, h.bufferSize, ReadOne(h).payloadAt, h.layout.payloadSize);
  }

  lemma SliceOfPrefix(buffer: seq<byte>, n: nat, at: nat, size: nat)
    requires at + size <= n <= |buffer|
    ensures buffer[..n][at..at + size] == buffer[at..at + size]
  {
  }

  lemma ReadOneKeeps(h: Handler)
    requires Ok(h) && Ready(h)
    ensures Ok(ReadOne(h)) && ReadOne(h).position > 0
    ensures Buffered(h) != [] && Buffered(h) == [Buffered(h)[0]] + Buffered(ReadOne(h))
    ensures Coming(h) == [Buffered(h)[0]] + Coming(ReadOne(h))
    ensures Shown(ReadOne(h)) == Buffered(h)[0].payload && ReadOne(h).pulseId == Buffered(h)[0].pulseId
  {
    ReadOneShows(h);
    BufferedRest(h);
    assert ([Buffered(h)[0]] + Buffered(ReadOne(h))) + EventsOf(h.layout, h.socket) ==
           [Buffered(h)[0]] + Coming(ReadOne(h));
  }

  lemma BufferedRest(h: Handler)
    requires Ok(h) && Ready(h)
    ensures Ok(ReadOne(h)) && Buffered(h) != [] && Buffered(h) == [Buffered(h)[0]] + Buffered(ReadOne(h))
  {
    var at := ReadOne(h).position;
    assert Unread(h.layout, Packet(h), at) == EventsFrom(h.layout, Packet(h), at);
  }

  /** What the next event is read from. */
  function Filled(h: Handler): Handler
    requires Ok(h)
  {
    if Ready(h) || h.socket == [] then h else Refilled(h)
  }

  lemma FilledKeeps(h: Handler)
    requires Ok(h)
    ensures Ok(Filled(h)) && Coming(Filled(h)) == Coming(h) && (Ready(Filled(h)) <==> Coming(h) != [])
    ensures Coming(h) != [] ==> Buffered(Filled(h)) != [] && Buffered(Filled(h))[0] == Coming(h)[0]
  {
    ReadyIsBuffered(h);
    if !Ready(h) && h.socket != [] {
      RefillKeeps(h);
    }
  }

  /** next(), when an event is to come. */
  function NextRead(h: Handler): Handler
    requires Ok(h) && Coming(h) != []
  {
    FilledKeeps(h);
    ReadOne(Filled(h))
  }

  /** next() gives the first event to come, and the pointer shows its payload. */
  lemma NextIsFirst(h: Handler)
    requires Ok(h) && Coming(h) != []
    ensures Ok(NextRead(h)) && NextRead(h).position > 0
    ensures Coming(h) == [Coming(h)[0]] + Coming(NextRead(h))
    ensures Shown(NextRead(h)) == Coming(h)[0].payload && NextRead(h).pulseId == Coming(h)[0].pulseId
  {
    FilledKeeps(h);
    ReadOneKeeps(Filled(h));
  }

  /** clear(ts) */
  function Cleared(h: Handler, ts: nat): Handler
    requires Ok(h)
    decreases |Coming(h)|
  {
    FilledKeeps(h);
    var f := Filled(h);
    if Coming(h) == [] || Buffered(f)[0].timestamp >= ts then f
    else
      ReadOneKeeps(f);
      Cleared(ReadOne(f), ts)
  }

  /** clear drops the longest prefix of older events, of those that have arrived. */
  lemma {:induction false} ClearDropsOlder(h: Handler, ts: nat)
    requires Ok(h)
    ensures Ok(Cleared(h, ts)) && Coming(Cleared(h, ts)) == DropOlder(Coming(h), ts)
    decreases |Coming(h)|
  {
    FilledKeeps(h);
    if Coming(h) != [] && Coming(h)[0].timestamp < ts {
      ReadOneKeeps(Filled(h));
      ClearDropsOlder(ReadOne(Filled(h)), ts);
    }
  }

  /** Event k of those to come is the first one of its packet. */
  predicate StartsPacket(l: Layout, packets: seq<seq<byte>>, k: nat)
    requires AllOk(l, packets)
    decreases |packets|
  {
    packets != []
    && (k == 0 || (k >= |Events(l, packets[0])| && StartsPacket(l, packets[1..], k - |Events(l, packets[0])|)))
  }

  predicate Starts(h: Handler, k: nat)
    requires Ok(h)
  {
    if k < |Buffered(h)| then h.position == 0 && k == 0 else StartsPacket(h.layout, h.socket, k - |Buffered(h)|)
  }

  function Dropped(h: Handler, ts: nat): (k: nat)
    requires Ok(h)
    ensures k <= |Coming(h)|
  {
    DropOlderIsLongest(Coming(h), ts);
    |Coming(h)| - |DropOlder(Coming(h), ts)|
  }

  /** Reading an event moves every later packet start one nearer. */
  lemma StartsShift(h: Handler, k: nat)
    requires Ok(h) && Coming(h) != [] && k > 0
    ensures Ok(NextRead(h)) && (Starts(h, k) <==> Starts(NextRead(h), k - 1))
  {
    FilledKeeps(h);
    ReadOneKeeps(Filled(h));
    if !Ready(h) {
      ReadyIsBuffered(h);
      RefillKeeps(h);
    }
  }

  /** The payload of the last event read when k more are, the last one's being e. */
  function LastPayload(h: Handler, e: seq<byte>, k: nat): seq<byte>
    requires Ok(h) && k <= |Coming(h)|
  {
    if k == 0 then e else Coming(h)[k - 1].payload
  }

  /** The pointer shows the packet in the buffer, and what it does not cover of e. */
  ghost predicate Overlaid(h: Handler, e: seq<byte>)
    requires Ok(h)
  {
    && |e| == h.layout.payloadSize
    && forall j :: 0 <= j < |e| ==> Shown(h)[j] == if h.payloadAt + j < h.bufferSize then Packet(h)[h.payloadAt + j]
       else e[j]
  }

  /** Dropping one event first. */
  lemma ClearOneFirst(h: Handler, ts: nat)
    requires Ok(h) && Coming(h) != [] && Coming(h)[0].timestamp < ts
    ensures var n := NextRead(h);
            && Ok(n) && n.position > 0 && Shown(n) == Coming(h)[0].payload && |Coming(n)| < |Coming(h)|
            && Cleared(h, ts) == Cleared(n, ts)
  {
    FilledKeeps(h);
    NextIsFirst(h);
  }

  lemma OneFewerDropped(h: Handler, ts: nat, e: seq<byte>)
    requires Ok(h) && Coming(h) != [] && Coming(h)[0].timestamp < ts
    ensures var n, x := NextRead(h), Coming(h)[0];
            && Ok(n) && Dropped(h, ts) == Dropped(n, ts) + 1
            && LastPayload(h, e, Dropped(h, ts)) == LastPayload(n, x.payload, Dropped(n, ts))
            && (Starts(h, Dropped(h, ts)) <==> Starts(n, Dropped(n, ts)))
  {
    NextIsFirst(h);
    DroppedShift(h, ts);
    StartsShift(h, Dropped(h, ts));
  }

  lemma DroppedShift(h: Handler, ts: nat)
    requires Ok(h) && Coming(h) != [] && Coming(h)[0].timestamp < ts
    ensures Ok(NextRead(h)) && Dropped(h, ts) == Dropped(NextRead(h), ts) + 1
  {
    NextIsFirst(h);
    assert Coming(h)[1..] == Coming(NextRead(h));
  }

  lemma RefillOverlays(h: Handler, e: seq<byte>)
    requires Ok(h) && !Ready(h) && h.socket != [] && Shown(h) == e
    ensures Ok(Refilled(h)) && Overlaid(Refilled(h), e)
  {
    RefillKeeps(h);
  }

  /** With nothing to drop, the pointer stays unless a packet has arrived and none of
      the buffer's is left to read. */
  lemma PointerUndropped(h: Handler, ts: nat, e: seq<byte>)
    requires Ok(h) && h.position > 0 && Shown(h) == e && (Coming(h) == [] || Coming(h)[0].timestamp >= ts)
    ensures var c := Cleared(h, ts);
            && Ok(c) && Dropped(h, ts) == 0 && (c.position > 0 <==> !Starts(h, 0))
            && (c.position > 0 ==> Shown(c) == e)
            && (c.position == 0 ==> c.bufferSize > 0 && Overlaid(c, e))
  {
    FilledKeeps(h);
    ReadyIsBuffered(h);
    if !Ready(h) && h.socket != [] {
      RefillKeeps(h);
      RefillOverlays(h, e);
    }
  }

  /** After clear the pointer is to the last event read if and only if the first event
      not dropped does not start a packet: it is in the packet being read, or there is
      none. Otherwise a packet was received over that event and left unread, and the
      pointer shows bytes of that packet. */
  lemma {:induction false} PointerAfterClear(h: Handler, ts: nat, e: seq<byte>)
    requires Ok(h) && h.position > 0 && Shown(h) == e
    ensures var k, c := Dropped(h, ts), Cleared(h, ts);
            && Ok(c) && (c.position > 0 <==> !Starts(h, k))
            && (c.position > 0 ==> Shown(c) == LastPayload(h, e, k))
            && (c.position == 0 ==> c.bufferSize > 0 && Overlaid(c, LastPayload(h, e, k)))
    decreases |Coming(h)|
  {
    if Coming(h) != [] && Coming(h)[0].timestamp < ts {
      ClearOneFirst(h, ts);
      OneFewerDropped(h, ts, e);
      PointerAfterClear(NextRead(h), ts, Coming(h)[0].payload);
    } else {
      PointerUndropped(h, ts, e);
    }
  }

  /** clear changes nothing exactly when the next event in the buffer is not older, or
      there is none and nothing has arrived: the guards of its branches. */
  predicate Untouched(h: Handler, ts: nat)
    requires Ok(h)
  {
    if Ready(h) then
      ReadyIsBuffered(h);
      Buffered(h)[0].timestamp >= ts
    else h.socket == []
  }

  /** The pointer is to the same place in the same packet. */
  predicate SamePlace(h: Handler, c: Handler) {
    c.received == h.received && c.payloadAt == h.payloadAt
  }

  /** Packets are received and read forwards. */
  predicate NotBefore(h: Handler, c: Handler) {
    h.received < c.received || (h.received == c.received && h.position <= c.position && h.buffer == c.buffer)
  }

  lemma {:induction false} ClearMovesOn(h: Handler, ts: nat)
    requires Ok(h)
    ensures NotBefore(h, Cleared(h, ts))
    ensures Untouched(h, ts) ==> Cleared(h, ts) == h
    ensures !Untouched(h, ts) ==> !NotBefore(Cleared(h, ts), h)
    decreases |Coming(h)|
  {
    FilledKeeps(h);
    ReadyIsBuffered(h);
    if Coming(h) != [] && Coming(h)[0].timestamp < ts {
      NextIsFirst(h);
      ClearMovesOn(NextRead(h), ts);
    }
  }

  /** What happens to a handler while an event read from it is waited for. */
  datatype Op = Arrives(packet: seq<byte>) | ClearOlder(ts: nat)

  predicate OpsOk(l: Layout, ops: seq<Op>) {
    forall i :: 0 <= i < |ops| ==> ops[i].Arrives? ==> PacketOk(l, ops[i].packet)
  }

  function After(h: Handler, op: Op): (r: Handler)
    requires Ok(h) && (op.Arrives? ==> PacketOk(h.layout, op.packet))
    ensures Ok(r) && r.layout == h.layout
  {
    match op
    case Arrives(packet) => h.(socket := h.socket + [packet])
    case ClearOlder(ts) =>
      ClearDropsOlder(h, ts);
      LayoutStays(h, ts);
      Cleared(h, ts)
  }

  lemma {:induction false} LayoutStays(h: Handler, ts: nat)
    requires Ok(h)
    ensures Cleared(h, ts).layout == h.layout
    decreases |Coming(h)|
  {
    FilledKeeps(h);
    if Coming(h) != [] && Coming(h)[0].timestamp < ts {
      ReadOneKeeps(Filled(h));
      LayoutStays(ReadOne(Filled(h)), ts);
    }
  }

  function AfterAll(h: Handler, ops: seq<Op>): (r: Handler)
    requires Ok(h) && OpsOk(h.layout, ops)
    ensures Ok(r) && r.layout == h.layout
    decreases |ops|
  {
    if ops == [] then h else AfterAll(After(h, ops[0]), ops[1..])
  }

  /** Every clear comes when the buffer's next event is not older than ts, or while
      nothing is buffered and nothing has arrived. */
  predicate Quiet(h: Handler, ops: seq<Op>)
    requires Ok(h)
  {
    forall i :: 0 <= i < |ops| && ops[i].ClearOlder? ==>
      if Ready(h) then Untouched(h, ops[i].ts) else h.socket == [] && forall j :: 0 <= j < i ==> ops[j].ClearOlder?
  }

  lemma {:induction false} MovesOn(h: Handler, ops: seq<Op>)
    requires Ok(h) && OpsOk(h.layout, ops)
    ensures NotBefore(h, AfterAll(h, ops))
    decreases |ops|
  {
    if ops != [] {
      if ops[0].ClearOlder? {
        ClearMovesOn(h, ops[0].ts);
      }
      MovesOn(After(h, ops[0]), ops[1..]);
    }
  }

  lemma QuietAfter(h: Handler, ops: seq<Op>)
    requires Ok(h) && OpsOk(h.layout, ops) && ops != [] && (ops[0].ClearOlder? ==> Untouched(h, ops[0].ts))
    ensures Quiet(h, ops) <==> Quiet(After(h, ops[0]), ops[1..])
  {
    var h', rest := After(h, ops[0]), ops[1..];
    if ops[0].ClearOlder? {
      ClearMovesOn(h, ops[0].ts);
    }
    if Quiet(h, ops) {
      forall i | 0 <= i < |rest| && rest[i].ClearOlder?
        ensures if Ready(h') then Untouched(h', rest[i].ts) else h'.socket == [] && forall j :: 0 <= j < i ==>
                rest[j].ClearOlder?
      {
        assert ops[i + 1].ClearOlder?;
        if !Ready(h) {
          forall j | 0 <= j < i ensures rest[j].ClearOlder? {
            assert ops[j + 1].ClearOlder?;
          }
          assert ops[0].ClearOlder?;
        }
      }
    }
    if Quiet(h', rest) {
      forall i | 0 <= i < |ops| && ops[i].ClearOlder?
        ensures if Ready(h) then Untouched(h, ops[i].ts) else h.socket == [] && forall j :: 0 <= j < i ==>
                ops[j].ClearOlder?
      {
        if i > 0 {
          assert rest[i - 1].ClearOlder?;
          forall j | 0 < j < i && !Ready(h) ensures ops[j].ClearOlder? {
            assert rest[j - 1].ClearOlder?;
          }
        }
      }
    }
  }

  /** While an event that was read is waited for, over any arrivals and calls of clear,
      the pointer stays on it if and only if all of them are quiet;
      then it shows the event's payload. */
  lemma {:induction false} WaitKeepsPointer(h: Handler, ops: seq<Op>)
    requires Ok(h) && OpsOk(h.layout, ops) && h.position > 0
    ensures SamePlace(h, AfterAll(h, ops)) <==> Quiet(h, ops)
    ensures SamePlace(h, AfterAll(h, ops)) ==> Shown(AfterAll(h, ops)) == Shown(h)
    decreases |ops|
  {
    if ops != [] {
      var h' := After(h, ops[0]);
      if ops[0].ClearOlder? {
        ClearMovesOn(h, ops[0].ts);
      }
      MovesOn(h, ops);
      if ops[0].Arrives? || Untouched(h, ops[0].ts) {
        QuietAfter(h, ops);
        WaitKeepsPointer(h', ops[1..]);
      } else {
        MovesOn(h', ops[1..]);
        assert ops[0].ClearOlder?;
      }
    }
  }

  lemma OpsOkMore(l: Layout, ops: seq<Op>, op: Op)
    requires OpsOk(l, ops) && (op.Arrives? ==> PacketOk(l, op.packet))
    ensures OpsOk(l, ops + [op]) && (ops != [] ==> (ops + [op])[0] == ops[0] && (ops + [op])[1..] == ops[1..] + [op])
  {
  }

  lemma {:induction false} AfterOneMore(h: Handler, ops: seq<Op>, op: Op)
    requires Ok(h) && OpsOk(h.layout, ops) && (op.Arrives? ==> PacketOk(h.layout, op.packet))
    ensures OpsOk(h.layout, ops + [op]) && AfterAll(h, ops + [op]) == After(AfterAll(h, ops), op)
    decreases |ops|
  {
    OpsOkMore(h.layout, ops, op);
    if ops == [] {
      assert ops + [op] == [op] && [op][1..] == [];
    } else {
      AfterOneMore(After(h, ops[0]), ops[1..], op);
    }
  }

  /** A packet with one event. */
  predicate Single(l: Layout, packet: seq<byte>) {
    LayoutOk(l) && PacketOk(l, packet) && |packet| < l.headerSize + 2 * l.payloadSize + 4
  }

  function Waiting(l: Layout, packet: seq<byte>): Handler {
    Handler(l, seq(MTU, _ => 0), 0, 0, 0, 0, [packet], 0)
  }

  /** Nothing buffered, and one packet of one event at the socket. */
  lemma OneComing(h: Handler, packet: seq<byte>)
    requires Ok(h) && !Ready(h) && h.socket == [packet] && Single(h.layout, packet)
    ensures Coming(h) == [FirstEvent(h.layout, packet)]
  {
    SingleEvents(h.layout, packet);
    assert EventsOf(h.layout, [packet]) == Events(h.layout, packet) + EventsOf(h.layout, [packet][1..]);
  }

  /** Received and left unread, over an event whose payload was at the first place. */
  lemma ReceivedOver(h: Handler, packet: seq<byte>, ts: nat)
    requires Ok(h) && h.position == h.layout.headerSize + h.layout.payloadSize && !Ready(h)
    requires h.socket == [packet] && Single(h.layout, packet) && FirstEvent(h.layout, packet).timestamp >= ts
    ensures var c := Cleared(h, ts); Ok(c) && c == Refilled(h) && Shown(c) == FirstEvent(h.layout, packet).payload
  {
    OneComing(h, packet);
    FilledKeeps(h);
    RefillKeeps(h);
    SliceOfPrefix(Refilled(h).buffer, |packet|, h.layout.headerSize, h.layout.payloadSize);
  }

  /** Two packets of one event: next reads the first; clear, with nothing to drop,
      receives the second over it, and the pointer shows the second event's payload. */
  lemma ClearShowsLater(l: Layout, p1: seq<byte>, p2: seq<byte>, ts: nat)
    requires Single(l, p1) && Single(l, p2) && FirstEvent(l, p2).timestamp >= ts
    ensures Ok(Waiting(l, p1)) && Coming(Waiting(l, p1)) == [FirstEvent(l, p1)]
    ensures var h := NextRead(Waiting(l, p1));
            && Ok(h) && h.position > 0 && Shown(h) == FirstEvent(l, p1).payload
            && var c := After(After(h, Arrives(p2)), ClearOlder(ts));
               !SamePlace(h, c) && Shown(c) == FirstEvent(l, p2).payload && Coming(c) == [FirstEvent(l, p2)]
  {
    var w := Waiting(l, p1);
    OneComing(w, p1);
    RefillKeeps(w);
    NextIsFirst(w);
    var h := NextRead(w);
    var h2 := After(h, Arrives(p2));
    assert h2.socket == [p2];
    OneComing(h2, p2);
    ReceivedOver(h2, p2, ts);
    ClearDropsOlder(h2, ts);
  }

  lemma SingleEvents(l: Layout, packet: seq<byte>)
    requires Single(l, packet)
    ensures Events(l, packet) == [FirstEvent(l, packet)]
  {
  }

  class Bld {
    const layout: Layout
    var bufferSize: nat
    var position: nat
    const buffer: array<byte>
    var payloadAt: nat
    var pulseId: nat
    var socket: seq<seq<byte>>
    ghost var received: nat

    ghost function View(): Handler
      reads this, buffer
    {
      Handler(layout, buffer[..], bufferSize, position, payloadAt, pulseId, socket, received)
    }

    constructor (layout: Layout)
      requires LayoutOk(layout)
      ensures Ok(View()) && this.layout == layout && Coming(View()) == [] && fresh(buffer) && socket == []
    {
      this.layout := layout;
      bufferSize, position, payloadAt, pulseId, socket, received := 0, 0, 0, 0, [], 0;
      buffer := new byte[MTU](_ => 0);
    }

    /** ready(): exactly when an event is buffered that was not read. */
    method IsReady() returns (r: bool)
      requires Ok(View())
      ensures r == Ready(View()) && (r <==> Buffered(View()) != [])
    {
      ReadyIsBuffered(View());
      r := position + layout.payloadSize + 4 <= bufferSize;
    }

    /** A packet reaches the socket. */
    method Arrive(packet: seq<byte>)
      requires Ok(View()) && PacketOk(layout, packet)
      modifies this`socket
      ensures Ok(View()) && Coming(View()) == old(Coming(View())) + Events(layout, packet)
      ensures View() == After(old(View()), Arrives(packet))
    {
      EventsOfAppend(layout, socket, packet);
      socket := socket + [packet];
    }

    method CopyIn(packet: seq<byte>)
      requires |packet| <= buffer.Length
      modifies buffer
      ensures forall k :: 0 <= k < |packet| ==> buffer[k] == packet[k]
      ensures forall k :: |packet| <= k < buffer.Length ==> buffer[k] == old(buffer[k])
    {
      for i := 0 to |packet|
        invariant forall k :: 0 <= k < i ==> buffer[k] == packet[k]
        invariant forall k :: i <= k < buffer.Length ==> buffer[k] == old(buffer[k])
      {
        buffer[i] := packet[i];
      }
    }

    /** recv into the buffer. */
    method Recv()
      requires Ok(View()) && socket != []
      modifies this`bufferSize, this`position, this`socket, this`received, buffer
      ensures View() == Refilled(old(View()))
    {
      var packet := socket[0];
      CopyIn(packet);
      assert buffer[..] == packet + old(buffer[..])[|packet|..];
      bufferSize := |packet|;
      position := 0;
      socket := socket[1..];
      received := received + 1;
    }

    /** The timestamp of the event that comes next from the buffer. */
    method Peek() returns (timestamp: nat)
      requires Ok(View()) && Ready(View())
      ensures Buffered(View()) != [] && timestamp == Buffered(View())[0].timestamp
    {
      var l := layout;
      SliceOfPrefix(buffer[..], bufferSize, l.timestampPos, 8);
      timestamp := (Number(buffer[l.timestampPos..l.timestampPos + 8]) - l.correction) % 0x1_0000_0000_0000_0000;
      if position > 0 {
        SliceOfPrefix(buffer[..], bufferSize, position, 4);
        timestamp := (timestamp + Number(buffer[position..position + 4]) % 0x10_0000) % 0x1_0000_0000_0000_0000;
      }
    }

    /** The pulse id of that event. */
    method PeekPulseId() returns (id: nat)
      requires Ok(View()) && Ready(View())
      ensures Buffered(View()) != [] && id == Buffered(View())[0].pulseId
    {
      var l := layout;
      SliceOfPrefix(buffer[..], bufferSize, l.pulseIdPos, 8);
      id := Number(buffer[l.pulseIdPos..l.pulseIdPos + 8]);
      if position > 0 {
        SliceOfPrefix(buffer[..], bufferSize, position, 4);
        id := (id + Number(buffer[position..position + 4]) / 0x10_0000 % 0x1000) % 0x1_0000_0000_0000_0000;
      }
    }

    /** Read the next event of the buffer. */
    method Read() returns (timestamp: nat)
      requires Ok(View()) && Ready(View())
      modifies this`payloadAt, this`position, this`pulseId
      ensures Buffered(old(View())) != [] && timestamp == Buffered(old(View()))[0].timestamp
      ensures View() == ReadOne(old(View()))
    {
      timestamp := Peek();
      pulseId := PeekPulseId();
      if position == 0 {
        payloadAt := layout.headerSize;
        position := layout.headerSize + layout.payloadSize;
      } else {
        payloadAt := position + 4;
        position := position + 4 + layout.payloadSize;
      }
    }

    /** The next event, which has arrived. */
    method Next() returns (timestamp: nat)
      requires Ok(View()) && Coming(View()) != []
      modifies this, buffer
      ensures View() == NextRead(old(View())) && timestamp == Coming(old(View()))[0].timestamp
      ensures Ok(View())
    {
      NextIsFirst(View());
      FilledKeeps(View());
      if position + layout.payloadSize + 4 > bufferSize {
        Recv();
      }
      timestamp := Read();
    }

    /** Read the events older than ts, as far as they have arrived. */
    method Clear(ts: nat)
      requires Ok(View())
      modifies this, buffer
      ensures View() == Cleared(old(View()), ts) && Ok(View())
    {
      ClearDropsOlder(View(), ts);
      var more := true;
      while more
        invariant Ok(View()) && Cleared(old(View()), ts) == if more then Cleared(View(), ts) else View()
        decreases more, |Coming(View())|
      {
        more := ClearOne(ts);
      }
    }

    method ClearOne(ts: nat) returns (more: bool)
      requires Ok(View())
      modifies this, buffer
      ensures Ok(View())
      ensures Cleared(old(View()), ts) == if more then Cleared(View(), ts) else View()
      ensures more ==> |Coming(View())| < |Coming(old(View()))|
    {
      FilledKeeps(View());
      if position + layout.payloadSize + 4 > bufferSize {
        if socket == [] {
          return false;
        }
        Recv();
      }
      var timestamp := Peek();
      if timestamp >= ts {
        return false;
      }
      ReadOneKeeps(View());
      timestamp := Read();
      return true;
    }

    /** memcpy from the payload pointer. */
    method Payload() returns (payload: seq<byte>)
      requires Ok(View())
      ensures payload == Shown(View())
    {
      payload := buffer[payloadAt..payloadAt + layout.payloadSize];
    }
  }
}
