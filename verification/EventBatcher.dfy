/** The batched frame of psdaq/drp/EventBatcher.hh and its use in
    psdaq/drp/BEBDetector.cc. A frame is a line of header, then for each subframe
    its data in whole lines and a line with the tail; it is read backwards. */
module EventBatcher {
  import opened Runs
  import Bits

  type byte = Bits.byte

  /** 2<<w, a power of two of at least two. */
  function LineWidth(w: nat): (lw: nat)
    ensures lw >= 2 && lw == Bits.Pow2(w + 1)
  {
    2 * Bits.Pow2(w)
  }

  function Word(frame: seq<byte>, at: nat): (n: nat)
    requires at + 4 <= |frame|
    ensures n < 0x1_0000_0000
  {
    var b0: int, b1: int, b2: int, b3: int := frame[at], frame[at + 1], frame[at + 2], frame[at + 3];
    b0 + 0x100 * b1 + 0x1_0000 * b2 + 0x100_0000 * b3
  }

  function WordBytes(n: nat): (r: seq<byte>)
    requires n < 0x1_0000_0000
    ensures |r| == 4
  {
    [n % 0x100, n / 0x100 % 0x100, n / 0x100 / 0x100 % 0x100, n / 0x100 / 0x100 / 0x100]
  }

  datatype Tail = Tail(size: nat, tdest: byte, width: byte)

  function TailAt(frame: seq<byte>, at: nat): Tail
    requires at + 8 <= |frame|
  {
    Tail(Word(frame, at), frame[at + 4], frame[at + 7])
  }

  /** _totSize: the size rounded up to whole lines, in 32-bit arithmetic. */
  function TotSize(t: Tail): nat
    requires t.width < 30
  {
    LineWidthBound(t.width);
    Bits.And((t.size + LineWidth(t.width) - 1) % 0x1_0000_0000, 0x1_0000_0000 - LineWidth(t.width))
  }

  lemma LineWidthBound(w: nat)
    requires w < 30
    ensures LineWidth(w) <= 0x4000_0000
  {
    Bits.Pow2Constants();
    Bits.Pow2Mono(w + 1, 30);
    assert Bits.Pow2(32) == 4 * Bits.Pow2(30);
  }

  /** A subframe: its destination, where its tail is, and its data. */
  datatype Span = Span(tdest: byte, start: nat, size: nat, tail: nat)

  /** Undefined stands for a line width that the shift cannot compute. */
  datatype Ending = Complete | Corrupt | Undefined

  /** The subframes that an iteration gives and how it ends. */
  datatype Outcome = Outcome(spans: seq<Span>, ending: Ending)

  /** The data of a span, when it is inside the frame. */
  function Content(frame: seq<byte>, s: Span): seq<byte>
    requires s.start + s.size <= |frame|
  {
    frame[s.start..s.start + s.size]
  }

  /** The iteration from the tail at a place to the end of the header line. */
  function Walk(frame: seq<byte>, lw: nat, at: nat): Outcome
    requires lw > 0 && at + 8 <= |frame|
    decreases at
  {
    var t := TailAt(frame, at);
    if t.width >= 30 then Outcome([], Undefined)
    else if at - TotSize(t) < lw then Outcome([], Corrupt)
    else
      var span := Span(t.tdest, at - TotSize(t), t.size, at);
      if at - TotSize(t) == lw then Outcome([span], Complete)
      else
        var rest := Walk(frame, lw, at - TotSize(t) - lw);
        Outcome([span] + rest.spans, rest.ending)
  }

  lemma TotSizeIs(t: Tail)
    requires t.width < 30 && t.size < 0x1_0000_0000
    ensures var lw := LineWidth(t.width);
            TotSize(t) == (t.size + lw - 1) % 0x1_0000_0000 - (t.size + lw - 1) % 0x1_0000_0000 % lw
  {
    RoundDown((t.size + LineWidth(t.width) - 1) % 0x1_0000_0000, t.width);
  }

  lemma RoundDown(x: nat, w: nat)
    requires w < 30 && x < 0x1_0000_0000
    ensures LineWidth(w) <= 0x4000_0000
    ensures Bits.And(x, 0x1_0000_0000 - LineWidth(w)) == x - x % LineWidth(w)
  {
    LineWidthBound(w);
    Bits.Pow2Constants();
    Bits.AndHighMask(x, w + 1, 32);
  }

  /** The rounded size covers the size exactly when the sum does not wrap around. */
  lemma Covers(t: Tail)
    requires t.width < 30 && 0 < t.size < 0x1_0000_0000
    ensures t.size <= TotSize(t) <==> t.size + LineWidth(t.width) - 1 < 0x1_0000_0000
    ensures t.size + LineWidth(t.width) - 1 < 0x1_0000_0000 ==> TotSize(t) < t.size + LineWidth(t.width)
  {
    TotSizeIs(t);
    LineWidthBound(t.width);
    var lw := LineWidth(t.width);
    var x := t.size + lw - 1;
    if x < 0x1_0000_0000 {
      assert x % 0x1_0000_0000 == x;
      assert 0 <= x % lw < lw;
    } else {
      assert x % 0x1_0000_0000 == x - 0x1_0000_0000;
    }
  }

  /** Spans that follow each other backwards, each before its tail and after the header. */
  ghost predicate Apart(spans: seq<Span>, lw: nat, at: nat) {
    && (forall i :: 0 <= i < |spans| ==> lw <= spans[i].start <= spans[i].tail <= at)
    && (forall i, j :: 0 <= i < j < |spans| ==> spans[j].tail + lw <= spans[i].start)
  }

  /** On any frame the iteration ends, with an error or with disjoint places for data. */
  lemma {:induction false} WalkIsApart(frame: seq<byte>, lw: nat, at: nat)
    requires lw >= 8 && at + 8 <= |frame|
    ensures Apart(Walk(frame, lw, at).spans, lw, at)
    ensures Walk(frame, lw, at).spans == [] ==> Walk(frame, lw, at).ending != Complete
    decreases at
  {
    var t := TailAt(frame, at);
    if t.width < 30 && at - TotSize(t) > lw {
      WalkIsApart(frame, lw, at - TotSize(t) - lw);
    }
  }

  /** Where the iteration stopped: the tail before the last subframe given. */
  function Stopped(spans: seq<Span>, lw: nat, at: nat): int {
    if spans == [] then at else spans[|spans| - 1].start - lw
  }

  /** It ends well exactly when a subframe begins right after the header, and otherwise at
      a tail whose subframe would reach into the header, or has no line width. */
  lemma {:induction false} WalkEnds(frame: seq<byte>, lw: nat, at: nat)
    requires lw >= 8 && at + 8 <= |frame|
    ensures var o := Walk(frame, lw, at);
            var p := Stopped(o.spans, lw, at);
            && (o.ending == Complete <==> o.spans != [] && o.spans[|o.spans| - 1].start == lw)
            && (o.ending != Complete ==>
                  && 0 <= p && p + 8 <= |frame|
                  && if TailAt(frame, p).width >= 30 then o.ending == Undefined
                     else o.ending == Corrupt && p - TotSize(TailAt(frame, p)) < lw)
    decreases at
  {
    var t := TailAt(frame, at);
    if t.width < 30 && at - TotSize(t) > lw {
      WalkEnds(frame, lw, at - TotSize(t) - lw);
    }
  }

  /** And a subframe's data is then inside its place exactly when rounding its size
      up to whole lines does not wrap around 32 bits. */
  lemma {:induction false} DataIsInside(frame: seq<byte>, lw: nat, at: nat, i: nat)
    requires lw >= 8 && at + 8 <= |frame| && i < |Walk(frame, lw, at).spans|
    ensures var s := Walk(frame, lw, at).spans[i];
            && s.tail + 8 <= |frame| && s.size == TailAt(frame, s.tail).size && TailAt(frame, s.tail).width < 30
            && s.tdest == TailAt(frame, s.tail).tdest
            && (s.size > 0 ==>
                  (s.start + s.size <= s.tail <==>
                   s.size + LineWidth(TailAt(frame, s.tail).width) - 1 < 0x1_0000_0000))
    decreases at
  {
    var t := TailAt(frame, at);
    if i == 0 {
      if t.size > 0 {
        Covers(t);
      }
    } else {
      DataIsInside(frame, lw, at - TotSize(t) - lw, i - 1);
    }
  }

  /** A header line and a tail of size 2^32 - 1, with lines of eight bytes. */
  function WrappingFrame(): (f: seq<byte>)
    ensures |f| == 16 && forall i :: 0 <= i < 16 ==> f[i] == if i == 0 then 0x20 else if 8 <= i < 12 then 0xFF
            else if i == 15 then 2 else 0
  {
    seq(16, i => if i == 0 then 0x20 else if 8 <= i < 12 then 0xFF else if i == 15 then 2 else 0)
  }

  /** Its size rounds up to 0: the iteration ends well, with data far outside the frame. */
  lemma WrappingSizeIsOutside()
    ensures Walk(WrappingFrame(), 8, 8) == Outcome([Span(0, 8, 0xFFFF_FFFF, 8)], Complete)
    ensures LineWidth(HeaderWidth(WrappingFrame())) == 8
  {
    var f := WrappingFrame();
    WrappingTail(f);
    LineOfEight();
    WrapsToNothing(TailAt(f, 8));
    LastAtOnce(f, 8, TailAt(f, 8));
  }

  lemma WrapsToNothing(t: Tail)
    requires t == Tail(0xFFFF_FFFF, 0, 2)
    ensures TotSize(t) == 0
  {
    LineOfEight();
    TotSizeIs(t);
  }

  lemma LastAtOnce(frame: seq<byte>, lw: nat, t: Tail)
    requires lw > 0 && lw + 8 <= |frame| && t == TailAt(frame, lw) && t.width < 30 && TotSize(t) == 0
    ensures Walk(frame, lw, lw) == Outcome([Span(t.tdest, lw, t.size, lw)], Complete)
  {
  }

  lemma LineOfEight()
    ensures LineWidth(2) == 8
  {
    assert Bits.Pow2(2) == 2 * Bits.Pow2(1) && Bits.Pow2(1) == 2 * Bits.Pow2(0);
  }

  lemma WrappingTail(f: seq<byte>)
    requires f == WrappingFrame()
    ensures TailAt(f, 8) == Tail(0xFFFF_FFFF, 0, 2) && HeaderWidth(f) == 2
  {
  }

  datatype Next = Subframe(span: Span) | NoMore | Failed

  /** What is to come is r and then the rest. */
  ghost predicate Gives(o: Outcome, r: Next, rest: Outcome) {
    o == match r
         case Subframe(span) => Outcome([span] + rest.spans, rest.ending)
         case NoMore => Outcome([], Complete)
         case Failed => Outcome([], Corrupt)
  }

  /** All was seen but o. */
  ghost predicate Left(all: Outcome, seen: seq<Span>, o: Outcome) {
    all == Outcome(seen + o.spans, o.ending)
  }

  lemma LeftNext(all: Outcome, seen: seq<Span>, o: Outcome, span: Span, rest: Outcome)
    requires Left(all, seen, o) && Gives(o, Subframe(span), rest)
    ensures |seen| < |all.spans| && all.spans[|seen|] == span && all.spans[0] == if seen == [] then span else seen[0]
    ensures Left(all, seen + [span], rest)
  {
    assert seen + ([span] + rest.spans) == (seen + [span]) + rest.spans;
  }

  lemma TableIsDone(all: Outcome, seen: seq<Span>, o: Outcome, r: Next, rest: Outcome, places: seq<Place>)
    requires Left(all, seen, o) && Gives(o, r, rest) && !r.Subframe?
    requires all.spans != [] && |places| == all.spans[0].tdest + 1
    requires places == Entries(seen, |places|) && InRange(seen, |places|)
    ensures IsTable(if r.Failed? then Throws else Table(places), all)
  {
    assert seen + [] == seen;
  }

  /** The header's width field is the high half of its first byte. */
  function HeaderWidth(frame: seq<byte>): nat
    requires frame != []
  {
    (frame[0] as int) / 16
  }

  class EvtBatcherIterator {
    const frame: seq<byte>
    const lw: nat
    var next: Option<nat>

    ghost predicate Valid()
      reads this
    {
      lw >= 8 && (next.Some? ==> next.value + 8 <= |frame|)
    }

    /** The subframes still to come. */
    ghost function Remaining(): Outcome
      reads this
      requires Valid()
    {
      if next.None? then Outcome([], Complete) else Walk(frame, lw, next.value)
    }

    constructor (frame: seq<byte>)
      requires frame != [] && LineWidth(HeaderWidth(frame)) >= 8 && |frame| >= LineWidth(HeaderWidth(frame))
      ensures Valid() && this.frame == frame && lw == LineWidth(HeaderWidth(frame))
      ensures next == Some(|frame| - lw) && Remaining() == Walk(frame, lw, |frame| - lw)
    {
      this.frame := frame;
      lw := LineWidth(HeaderWidth(frame));
      next := Some(|frame| - LineWidth(HeaderWidth(frame)));
    }

    /** The next subframe backwards, the end, or the exception. */
    method Advance() returns (r: Next)
      requires Valid() && Remaining() != Outcome([], Undefined)
      modifies this
      ensures Valid()
      ensures Gives(old(Remaining()), r, Remaining())
      ensures r.NoMore? <==> old(next.None?)
    {
      if next.None? {
        return NoMore;
      }
      var at := next.value;
      var t := TailAt(frame, at);
      if at - TotSize(t) < lw {
        return Failed;
      }
      if at - TotSize(t) == lw {
        next := None;
      } else {
        next := Some(at - TotSize(t) - lw);
      }
      return Subframe(Span(t.tdest, at - TotSize(t), t.size, at));
    }
  }

  /** _subframes: for each destination up to the first subframe's, where its data is;
      an empty place stands for no data. */
  datatype Place = Place(start: nat, size: nat)

  datatype Table = Table(places: seq<Place>) | Throws | OutOfRange

  /** The entry for destination d: that of the last subframe visited for it. */
  function Entry(spans: seq<Span>, d: nat): Place {
    if spans == [] then Place(0, 0)
    else
      var last := spans[|spans| - 1];
      if last.tdest == d then Place(last.start, last.size) else Entry(spans[..|spans| - 1], d)
  }

  function Entries(spans: seq<Span>, n: nat): (r: seq<Place>)
    ensures |r| == n && forall d :: 0 <= d < n ==> r[d] == Entry(spans, d)
  {
    seq(n, d requires 0 <= d < n => Entry(spans, d))
  }

  /** A table, unless the iteration throws or meets a destination beyond the first one's. */
  ghost predicate IsTable(table: Table, o: Outcome) {
    match table
    case Table(places) =>
      && o.ending == Complete && o.spans != [] && |places| == o.spans[0].tdest + 1
      && places == Entries(o.spans, |places|) && InRange(o.spans, |places|)
    case Throws => o.ending == Corrupt
    case OutOfRange => exists i :: 0 <= i < |o.spans| && o.spans[i].tdest > o.spans[0].tdest
  }

  method Record(places: seq<Place>, s: Span, ghost seen: seq<Span>) returns (places': seq<Place>)
    requires s.tdest as int < |places| && places == Entries(seen, |places|) && InRange(seen, |places|)
    ensures |places'| == |places| && places' == Entries(seen + [s], |places|) && InRange(seen + [s], |places|)
  {
    EntriesNext(seen, s, |places|);
    places' := places[s.tdest := Place(s.start, s.size)];
  }

  method Subframes(frame: seq<byte>) returns (table: Table)
    requires frame != [] && 8 <= LineWidth(HeaderWidth(frame)) <= |frame|
    requires Walk(frame, LineWidth(HeaderWidth(frame)), |frame| - LineWidth(HeaderWidth(frame))).ending != Undefined
    ensures IsTableOf(table, frame)
  {
    var it := new EvtBatcherIterator(frame);
    ghost var all := it.Remaining();
    var r := it.Advance();
    if r.Failed? {
      return Throws;
    }
    var n: nat := r.span.tdest as int + 1;
    var places := seq(n, _ => Place(0, 0));
    ghost var seen, o := [], all;
    assert places == Entries([], n);
    while r.Subframe?
      invariant it.Valid() && all.ending != Undefined && |places| == n && all.spans != [] && n == all.spans[0].tdest + 1
      invariant Left(all, seen, o) && Gives(o, r, it.Remaining())
      invariant places == Entries(seen, n) && InRange(seen, n)
      decreases |all.spans| - |seen|
    {
      o := it.Remaining();
      LeftNext(all, seen, Outcome([r.span] + o.spans, o.ending), r.span, o);
      if r.span.tdest as int >= n {
        return OutOfRange;
      }
      places := Record(places, r.span, seen);
      seen := seen + [r.span];
      r := it.Advance();
    }
    TableIsDone(all, seen, o, r, it.Remaining(), places);
    return if r.Failed? then Throws else Table(places);
  }

  ghost predicate InRange(spans: seq<Span>, n: nat) {
    forall i :: 0 <= i < |spans| ==> spans[i].tdest as int < n
  }

  lemma EntriesNext(spans: seq<Span>, s: Span, n: nat)
    requires s.tdest < n
    ensures Entries(spans + [s], n) == Entries(spans, n)[s.tdest := Place(s.start, s.size)]
  {
    assert (spans + [s])[..|spans|] == spans;
  }

  /** A subframe as the batcher sends it. */
  datatype Sub = Sub(tdest: byte, tuserFirst: byte, tuserLast: byte, data: seq<byte>)

  function Zeros(n: nat): (r: seq<byte>)
    ensures |r| == n
  {
    seq(n, _ => 0)
  }

  /** What fills the last line of data. */
  function Padding(size: nat, lw: nat): (n: nat)
    requires lw > 0
    ensures n < lw
  {
    (lw - size % lw) % lw
  }

  function PackOne(sub: Sub, w: nat): (r: seq<byte>)
    requires 2 <= w < 16 && |sub.data| < 0x1_0000_0000
    ensures |r| == |sub.data| + Padding(|sub.data|, LineWidth(w)) + LineWidth(w)
  {
    LineWidthAtLeast8(w);
    sub.data + Zeros(Padding(|sub.data|, LineWidth(w))) + WordBytes(|sub.data|)
    + [sub.tdest, sub.tuserFirst, sub.tuserLast, w] + Zeros(LineWidth(w) - 8)
  }

  lemma LineWidthAtLeast8(w: nat)
    requires w >= 2
    ensures LineWidth(w) >= 8
  {
    Bits.Pow2Mono(3, w + 1);
    assert Bits.Pow2(3) == 8;
  }

  function PackAll(subs: seq<Sub>, w: nat): seq<byte>
    requires Packable(subs, w)
  {
    if subs == [] then [] else PackAll(subs[..|subs| - 1], w) + PackOne(subs[|subs| - 1], w)
  }

  /** The batcher's frame. */
  function Pack(subs: seq<Sub>, w: nat, version: nat, sequenceCount: byte): seq<byte>
    requires Packable(subs, w) && version < 16
  {
    LineWidthAtLeast8(w);
    [16 * w + version, sequenceCount] + Zeros(LineWidth(w) - 2) + PackAll(subs, w)
  }

  /** No subframe is empty or so long that its rounded size wraps around. */
  predicate Packable(subs: seq<Sub>, w: nat) {
    2 <= w < 16 && forall i :: 0 <= i < |subs| ==>
      0 < |subs[i].data| && |subs[i].data| + LineWidth(w) - 1 < 0x1_0000_0000
  }

  lemma Digits(n: nat)
    ensures var a, b := n / 0x100, n / 0x100 / 0x100;
            n == n % 0x100 + 0x100 * (a % 0x100) + 0x1_0000 * (b % 0x100) + 0x100_0000 * (b / 0x100)
  {
  }

  lemma WordRoundTrip(frame: seq<byte>, at: nat, n: nat)
    requires n < 0x1_0000_0000 && at + 4 <= |frame| && frame[at..at + 4] == WordBytes(n)
    ensures Word(frame, at) == n
  {
    var b := frame[at..at + 4];
    Digits(n);
    assert frame[at] == b[0] && frame[at + 1] == b[1] && frame[at + 2] == b[2] && frame[at + 3] == b[3];
  }

  /** The rounded size is the data with its padding. */
  lemma TotSizeOfSub(t: Tail, w: nat)
    requires 2 <= w < 16 && t.width == w && 0 < t.size && t.size + LineWidth(w) - 1 < 0x1_0000_0000
    ensures TotSize(t) == t.size + Padding(t.size, LineWidth(w))
  {
    TotSizeIs(t);
    var lw := LineWidth(w);
    var x := t.size + lw - 1;
    assert x % 0x1_0000_0000 == x;
    RoundUp(t.size, lw);
  }

  lemma RoundUp(size: nat, lw: nat)
    requires lw > 0 && size > 0
    ensures (size + lw - 1) - (size + lw - 1) % lw == size + Padding(size, lw)
  {
    var q, r := size / lw, size % lw;
    assert size == q * lw + r;
    if r == 0 {
      Bits.ModUnique(lw, lw, 1, 0);
      Bits.ModUnique(size + lw - 1, lw, q, lw - 1);
    } else {
      Bits.ModUnique(lw - r, lw, 0, lw - r);
      assert size + lw - 1 == (q + 1) * lw + (r - 1) by { assert (q + 1) * lw == q * lw + lw; }
      Bits.ModUnique(size + lw - 1, lw, q + 1, r - 1);
    }
  }

  /** The spans are those of the subframes, last first. */
  ghost predicate Reads(frame: seq<byte>, spans: seq<Span>, subs: seq<Sub>) {
    && |spans| == |subs|
    && forall i {:trigger spans[i]} :: 0 <= i < |spans| ==>
         && spans[i].tdest == subs[|subs| - 1 - i].tdest
         && spans[i].start + spans[i].size <= |frame|
         && Content(frame, spans[i]) == subs[|subs| - 1 - i].data
  }

  lemma SliceOfSlice(frame: seq<byte>, start: nat, one: seq<byte>, i: nat, j: nat)
    requires start + |one| <= |frame| && frame[start..start + |one|] == one && i <= j <= |one|
    ensures frame[start + i..start + j] == one[i..j]
  {
    forall k | 0 <= k < j - i ensures frame[start + i..start + j][k] == one[i..j][k] {
      assert frame[start..start + |one|][i + k] == one[i + k];
    }
  }

  lemma PackOneParts(sub: Sub, w: nat)
    requires 2 <= w < 16 && |sub.data| < 0x1_0000_0000
    ensures var one, n := PackOne(sub, w), |sub.data| + Padding(|sub.data|, LineWidth(w));
            && n + 8 <= n + LineWidth(w) == |one| && one[..|sub.data|] == sub.data
            && one[n..n + 4] == WordBytes(|sub.data|) &&
               one[n + 4..n + 8] == [sub.tdest, sub.tuserFirst, sub.tuserLast, w]
  {
    LineWidthAtLeast8(w);
  }

  /** Subframe data from start, with its tail at a place. */
  ghost predicate HasTail(frame: seq<byte>, start: nat, at: nat, sub: Sub, w: nat) {
    && w < 16 && start <= at && at + 8 <= |frame| && start + |sub.data| <= |frame|
    && frame[start..start + |sub.data|] == sub.data
    && TailAt(frame, at) == Tail(|sub.data|, sub.tdest, w) && TotSize(TailAt(frame, at)) == at - start
  }

  /** One packed subframe, found in a frame. */
  lemma PackedTail(frame: seq<byte>, start: nat, sub: Sub, w: nat)
    requires 2 <= w < 16 && 0 < |sub.data| && |sub.data| + LineWidth(w) - 1 < 0x1_0000_0000
    requires start + |PackOne(sub, w)| <= |frame| && frame[start..start + |PackOne(sub, w)|] == PackOne(sub, w)
    ensures LineWidth(w) <= |PackOne(sub, w)|
    ensures HasTail(frame, start, start + |PackOne(sub, w)| - LineWidth(w), sub, w)
  {
    PackOneParts(sub, w);
    var one, n := PackOne(sub, w), |sub.data| + Padding(|sub.data|, LineWidth(w));
    SliceOfSlice(frame, start, one, 0, |sub.data|);
    SliceOfSlice(frame, start, one, n, n + 4);
    SliceOfSlice(frame, start, one, n + 4, n + 8);
    TailParts(frame, start + n, |sub.data|, sub, w);
    TotSizeOfSub(TailAt(frame, start + n), w);
  }

  lemma TailParts(frame: seq<byte>, tail: nat, size: nat, sub: Sub, w: nat)
    requires w < 16 && size < 0x1_0000_0000 && tail + 8 <= |frame| && frame[tail..tail + 4] == WordBytes(size)
    requires frame[tail + 4..tail + 8] == [sub.tdest, sub.tuserFirst, sub.tuserLast, w]
    ensures TailAt(frame, tail) == Tail(size, sub.tdest, w)
  {
    WordRoundTrip(frame, tail, size);
    var last := frame[tail + 4..tail + 8];
    assert frame[tail + 4] == last[0] && frame[tail + 7] == last[3];
  }

  ghost predicate Holds(frame: seq<byte>, lw: nat, bytes: seq<byte>) {
    lw + |bytes| <= |frame| && frame[lw..lw + |bytes|] == bytes
  }

  lemma TailAfter(frame: seq<byte>, lw: nat, before: seq<byte>, all: seq<byte>, sub: Sub, w: nat)
    requires 2 <= w < 16 && 0 < |sub.data| && |sub.data| + LineWidth(w) - 1 < 0x1_0000_0000 && lw == LineWidth(w)
    requires all == before + PackOne(sub, w) && Holds(frame, lw, all)
    ensures Holds(frame, lw, before) && |before| + lw <= |all|
    ensures HasTail(frame, lw + |before|, |all|, sub, w)
  {
    PackedParts(frame, lw, before, PackOne(sub, w), all);
    PackedTail(frame, lw + |before|, sub, w);
  }

  lemma ReadsOne(frame: seq<byte>, span: Span, spans: seq<Span>, subs: seq<Sub>)
    requires subs != [] && Reads(frame, spans, subs[..|subs| - 1])
    requires span.tdest == subs[|subs| - 1].tdest && span.start + span.size <= |frame|
    requires Content(frame, span) == subs[|subs| - 1].data
    ensures Reads(frame, [span] + spans, subs)
  {
    var all, n := [span] + spans, |subs| - 1;
    forall i {:trigger all[i]} | 0 <= i < |all|
      ensures all[i].tdest == subs[n - i].tdest && all[i].start + all[i].size <= |frame| &&
              Content(frame, all[i]) == subs[n - i].data
    {
      if i > 0 {
        assert all[i] == spans[i - 1] && subs[..n][n - i] == subs[n - i];
      }
    }
  }

  lemma WalkUnfolds(frame: seq<byte>, lw: nat, start: nat, at: nat, sub: Sub, w: nat)
    requires 8 <= lw <= start && HasTail(frame, start, at, sub, w)
    ensures var span := Span(sub.tdest, start, |sub.data|, at);
            && (start == lw ==> Walk(frame, lw, at) == Outcome([span], Complete))
            && (start > lw ==>
                  Walk(frame, lw, at) ==
                  Outcome([span] + Walk(frame, lw, start - lw).spans, Walk(frame, lw, start - lw).ending))
  {
  }

  /** The walk from a tail ends well and gives the subframes, last first. */
  ghost predicate WalksTo(frame: seq<byte>, lw: nat, at: nat, subs: seq<Sub>) {
    && lw > 0 && at + 8 <= |frame|
    && Walk(frame, lw, at).ending == Complete && Reads(frame, Walk(frame, lw, at).spans, subs)
  }

  /** The walk from the last tail, given the walk from the one before. */
  lemma WalkExtends(frame: seq<byte>, lw: nat, start: nat, at: nat, subs: seq<Sub>, w: nat)
    requires 8 <= lw <= start && subs != [] && HasTail(frame, start, at, subs[|subs| - 1], w)
    requires start == lw ==> |subs| == 1
    requires start > lw ==> WalksTo(frame, lw, start - lw, subs[..|subs| - 1])
    ensures WalksTo(frame, lw, at, subs)
  {
    var sub := subs[|subs| - 1];
    var span := Span(sub.tdest, start, |sub.data|, at);
    WalkUnfolds(frame, lw, start, at, sub, w);
    if start == lw {
      ReadsOne(frame, span, [], subs);
      assert [span] + [] == [span];
    } else {
      ReadsOne(frame, span, Walk(frame, lw, start - lw).spans, subs);
    }
  }

  lemma PackedLast(subs: seq<Sub>, w: nat, before: seq<byte>, all: seq<byte>)
    requires Packable(subs, w) && subs != [] && Packable(subs[..|subs| - 1], w)
    requires before == PackAll(subs[..|subs| - 1], w) && all == PackAll(subs, w)
    ensures all == before + PackOne(subs[|subs| - 1], w) && (|subs| == 1 ==> before == [])
  {
    if |subs| == 1 {
      assert subs[..0] == [];
    }
  }

  /** The last of packed subframes, when the walk over the others is known. */
  lemma WalkLast(frame: seq<byte>, subs: seq<Sub>, w: nat, lw: nat, before: seq<byte>, all: seq<byte>)
    requires 2 <= w < 16 && subs != [] && lw == LineWidth(w) && lw >= 8
    requires 0 < |subs[|subs| - 1].data| && |subs[|subs| - 1].data| + lw - 1 < 0x1_0000_0000
    requires all == before + PackOne(subs[|subs| - 1], w) && Holds(frame, lw, all) && (|subs| == 1 <==> before == [])
    requires |subs| > 1 ==> WalksTo(frame, lw, |before|, subs[..|subs| - 1])
    ensures lw <= |all| && WalksTo(frame, lw, |all|, subs)
  {
    TailAfter(frame, lw, before, all, subs[|subs| - 1], w);
    WalkExtends(frame, lw, lw + |before|, |all|, subs, w);
  }

  /** The walk over packed subframes. */
  lemma {:induction false} WalkPacked(frame: seq<byte>, subs: seq<Sub>, w: nat, lw: nat, all: seq<byte>)
    requires Packable(subs, w) && subs != [] && lw == LineWidth(w) && lw >= 8 && all == PackAll(subs, w)
    requires Holds(frame, lw, all)
    ensures lw <= |all| && WalksTo(frame, lw, |all|, subs)
    decreases |subs|
  {
    var rest := subs[..|subs| - 1];
    var before := PackAll(rest, w);
    PackedLast(subs, w, before, all);
    if rest != [] {
      PackedParts(frame, lw, before, PackOne(subs[|subs| - 1], w), all);
      WalkPacked(frame, rest, w, lw, before);
    }
    WalkLast(frame, subs, w, lw, before, all);
  }

  lemma PackedParts(frame: seq<byte>, lw: nat, before: seq<byte>, one: seq<byte>, all: seq<byte>)
    requires all == before + one && lw + |all| <= |frame| && frame[lw..lw + |all|] == all
    ensures frame[lw..lw + |before|] == before
    ensures frame[lw + |before|..lw + |before| + |one|] == one
  {
    assert frame[lw..lw + |before|] == frame[lw..lw + |all|][..|before|];
    assert frame[lw + |before|..lw + |before| + |one|] == frame[lw..lw + |all|][|before|..];
  }

  /** Iterating over a frame of lines of 2<<w bytes gives exactly the subframes, last first. */
  ghost predicate ReadsBack(frame: seq<byte>, subs: seq<Sub>, w: nat) {
    && frame != [] && HeaderWidth(frame) == w && 8 <= LineWidth(w) <= |frame|
    && WalksTo(frame, LineWidth(w), |frame| - LineWidth(w), subs)
  }

  lemma RoundTrip(subs: seq<Sub>, w: nat, version: nat, sequenceCount: byte)
    requires Packable(subs, w) && version < 16 && subs != []
    ensures ReadsBack(Pack(subs, w, version, sequenceCount), subs, w)
  {
    PackHeader(subs, w, version, sequenceCount);
    WalkPacked(Pack(subs, w, version, sequenceCount), subs, w, LineWidth(w), PackAll(subs, w));
  }

  lemma PackHeader(subs: seq<Sub>, w: nat, version: nat, sequenceCount: byte)
    requires Packable(subs, w) && version < 16
    ensures var frame, lw := Pack(subs, w, version, sequenceCount), LineWidth(w);
            && 8 <= lw && |frame| == lw + |PackAll(subs, w)| && HeaderWidth(frame) == w
            && frame[lw..lw + |PackAll(subs, w)|] == PackAll(subs, w)
  {
    LineWidthAtLeast8(w);
  }

  /** What _subframes makes of a frame. */
  ghost predicate IsTableOf(table: Table, frame: seq<byte>) {
    && frame != [] && 8 <= LineWidth(HeaderWidth(frame)) <= |frame|
    && IsTable(table, Walk(frame, LineWidth(HeaderWidth(frame)), |frame| - LineWidth(HeaderWidth(frame))))
  }

  /** Subframe k is the only one for its destination. */
  ghost predicate OnlyOne(subs: seq<Sub>, k: nat) {
    k < |subs| && forall j :: 0 <= j < |subs| && j != k ==> subs[j].tdest != subs[k].tdest
  }

  lemma {:induction false} EntryOf(spans: seq<Span>, i: nat)
    requires i < |spans| && forall j :: i < j < |spans| ==> spans[j].tdest != spans[i].tdest
    ensures Entry(spans, spans[i].tdest) == Place(spans[i].start, spans[i].size)
  {
    if i < |spans| - 1 {
      EntryOf(spans[..|spans| - 1], i);
    }
  }

  lemma ReadsDestinations(frame: seq<byte>, spans: seq<Span>, subs: seq<Sub>, k: nat)
    requires Reads(frame, spans, subs) && OnlyOne(subs, k)
    requires forall j :: 0 <= j < |subs| ==> subs[j].tdest <= subs[|subs| - 1].tdest
    ensures var i := |subs| - 1 - k; forall j :: i < j < |spans| ==> spans[j].tdest != spans[i].tdest
    ensures forall j :: 0 <= j < |spans| ==> spans[j].tdest <= spans[0].tdest
  {
    var i := |subs| - 1 - k;
    assert spans[i].tdest == subs[k].tdest && spans[0].tdest == subs[|subs| - 1].tdest;
    forall j | 0 <= j < |spans|
      ensures spans[j].tdest <= spans[0].tdest && (j > i ==> spans[j].tdest != spans[i].tdest)
    {
      assert spans[j].tdest == subs[|subs| - 1 - j].tdest;
    }
  }

  /** The table of such a frame has each subframe's data at its destination. */
  lemma TableOfPack(frame: seq<byte>, subs: seq<Sub>, w: nat, table: Table, k: nat)
    requires ReadsBack(frame, subs, w) && IsTableOf(table, frame) && OnlyOne(subs, k)
    requires forall j :: 0 <= j < |subs| ==> subs[j].tdest <= subs[|subs| - 1].tdest
    ensures table.Table? && |table.places| == subs[|subs| - 1].tdest as int + 1 && subs[k].tdest as int < |table.places|
    ensures var p := table.places[subs[k].tdest];
            p.start + p.size <= |frame| && frame[p.start..p.start + p.size] == subs[k].data
  {
    var spans, i := Walk(frame, LineWidth(w), |frame| - LineWidth(w)).spans, |subs| - 1 - k;
    ReadsDestinations(frame, spans, subs, k);
    EntryOf(spans, i);
    assert Content(frame, spans[i]) == subs[k].data;
  }

  /** A frame inside subframe k is read in turn: the data found at its destination
      are the inner frame, which gives the inner subframes. */
  lemma NestedRoundTrip(frame: seq<byte>, subs: seq<Sub>, w: nat, table: Table, k: nat,
                        inner: seq<Sub>, w': nat, version': nat, sequenceCount': byte)
    requires ReadsBack(frame, subs, w) && IsTableOf(table, frame) && OnlyOne(subs, k)
    requires forall j :: 0 <= j < |subs| ==> subs[j].tdest <= subs[|subs| - 1].tdest
    requires Packable(inner, w') && version' < 16 && inner != []
    requires subs[k].data == Pack(inner, w', version', sequenceCount')
    ensures table.Table? && subs[k].tdest as int < |table.places|
    ensures var p := table.places[subs[k].tdest];
            p.start + p.size <= |frame| && ReadsBack(frame[p.start..p.start + p.size], inner, w')
  {
    TableOfPack(frame, subs, w, table, k);
    RoundTrip(inner, w', version', sequenceCount');
  }
}
