/** The client side of psana/psana/smalldata.py: calls about one event merged into
    one dictionary, dictionaries shipped in batches, and the messages a server
    receives from several clients. */
module SmallDataClient {
  import opened SmallDataTable

  /** One call of event(): the timestamp and the flattened data of its arguments. */
  datatype Call = Call(ts: int, data: Event)

  /** A client's events before batching, each with the timestamp it was opened with. */
  datatype Stamped = Stamped(ts: int, event: Event)

  datatype Message = Batch(events: seq<Event>) | Finished

  /** The events of the messages a server reads. */
  function Received(messages: seq<Message>): seq<Event> {
    if messages == [] then []
    else
      var last := messages[|messages| - 1];
      var rest := Received(messages[..|messages| - 1]);
      if last.Batch? then rest + last.events else rest
  }

  /** How many of the messages say that a client is done. */
  function Finishes(messages: seq<Message>): nat {
    if messages == [] then 0
    else Finishes(messages[..|messages| - 1]) + if messages[|messages| - 1].Finished? then 1 else 0
  }

  function Previous(stream: seq<Stamped>): int {
    if stream == [] then -1 else stream[|stream| - 1].ts
  }

  /** One call with no batching: merged into the last event, a new event, or too old. */
  function Extend(stream: seq<Stamped>, call: Call): seq<Stamped> {
    var last := |stream| - 1;
    if call.ts < Previous(stream) then stream
    else if call.ts > Previous(stream) then stream + [Stamped(call.ts, call.data[TIMESTAMP := IntVal(call.ts)])]
    else if stream == [] then stream
    else stream[..last] + [Stamped(call.ts, stream[last].event + call.data)]
  }

  function Stream(calls: seq<Call>): seq<Stamped> {
    if calls == [] then [] else Extend(Stream(calls[..|calls| - 1]), calls[|calls| - 1])
  }

  function Events(stream: seq<Stamped>): (r: seq<Event>)
    ensures |r| == |stream|
    ensures forall i :: 0 <= i < |r| ==> r[i] == stream[i].event
  {
    if stream == [] then [] else Events(stream[..|stream| - 1]) + [stream[|stream| - 1].event]
  }

  lemma OneMore(messages: seq<Message>, m: Message)
    ensures Received(messages + [m]) == if m.Batch? then Received(messages) + m.events else Received(messages)
    ensures Finishes(messages + [m]) == Finishes(messages) + if m.Finished? then 1 else 0
  {
    assert (messages + [m])[..|messages|] == messages;
  }

  /** Reading message k. */
  lemma NextMessage(messages: seq<Message>, k: nat, before: seq<Event>)
    requires k < |messages|
    ensures before + Received(messages[..k + 1]) ==
            if messages[k].Batch? then (before + Received(messages[..k])) + messages[k].events
            else before + Received(messages[..k])
    ensures Finishes(messages[..k + 1]) == Finishes(messages[..k]) + if messages[k].Finished? then 1 else 0
  {
    OneMore(messages[..k], messages[k]);
    assert messages[..k + 1] == messages[..k] + [messages[k]];
  }

  function Sent(batches: seq<seq<Event>>): seq<Message> {
    if batches == [] then [] else Sent(batches[..|batches| - 1]) + [Batch(batches[|batches| - 1])]
  }

  /** A call is used unless an earlier one was about a later event. */
  predicate Accepted(calls: seq<Call>, j: nat)
    requires j < |calls|
  {
    calls[j].ts > -1 && forall k :: 0 <= k < j ==> calls[k].ts <= calls[j].ts
  }

  /** Call j is the last one about the event of its timestamp to supply d. */
  predicate LastSupplier(calls: seq<Call>, j: nat, d: Name)
    requires j < |calls|
  {
    Accepted(calls, j) && d in calls[j].data
    && forall k :: j < k < |calls| && Accepted(calls, k) && calls[k].ts == calls[j].ts ==> d !in calls[k].data
  }

  /** An event with this timestamp is in the stream. */
  predicate HasEvent(stream: seq<Stamped>, ts: int) {
    exists i :: 0 <= i < |stream| && stream[i].ts == ts
  }

  predicate HasAccepted(calls: seq<Call>, ts: int) {
    exists j :: 0 <= j < |calls| && calls[j].ts == ts && Accepted(calls, j)
  }

  /** Timestamps increase strictly, and each event records a timestamp. */
  predicate Ordered(stream: seq<Stamped>) {
    && (forall i, j :: 0 <= i < j < |stream| ==> stream[i].ts < stream[j].ts)
    && (forall i :: 0 <= i < |stream| ==> -1 < stream[i].ts <= Previous(stream))
    && (forall i :: 0 <= i < |stream| ==> TIMESTAMP in stream[i].event)
  }

  lemma ExtendOrdered(stream: seq<Stamped>, call: Call)
    requires Ordered(stream)
    ensures Ordered(Extend(stream, call))
  {
  }

  /** The timestamps after one more call. */
  lemma ExtendTimes(stream: seq<Stamped>, call: Call, ts: int)
    requires Ordered(stream)
    ensures HasEvent(Extend(stream, call), ts) <==>
            HasEvent(stream, ts) || (ts == call.ts && ts > Previous(stream))
    ensures Previous(Extend(stream, call)) == if call.ts > Previous(stream) then call.ts else Previous(stream)
  {
    var s' := Extend(stream, call);
    if i :| 0 <= i < |stream| && stream[i].ts == ts {
      assert s'[i].ts == ts;
    }
    if call.ts > Previous(stream) {
      assert s'[|s'| - 1].ts == call.ts;
    }
  }

  /** A call leaves the place of an event there, and its data unless it is about it. */
  lemma EventStays(stream: seq<Stamped>, call: Call, i: nat, ts: int)
    requires Ordered(stream) && HasEvent(stream, ts)
    requires i < |Extend(stream, call)| && Extend(stream, call)[i].ts == ts
    ensures i < |stream| && stream[i].ts == ts
    ensures Extend(stream, call)[i].event ==
            if call.ts == ts == Previous(stream) then stream[i].event + call.data else stream[i].event
  {
    ExtendOrdered(stream, call);
  }

  lemma NewestWins(stream: seq<Stamped>, call: Call, d: Name, i: nat)
    requires Ordered(stream) && Previous(stream) <= call.ts && call.ts > -1
    requires d in call.data && d != TIMESTAMP
    requires i < |Extend(stream, call)| && Extend(stream, call)[i].ts == call.ts
    ensures d in Extend(stream, call)[i].event && Extend(stream, call)[i].event[d] == call.data[d]
  {
    ExtendOrdered(stream, call);
    assert i == |Extend(stream, call)| - 1;
  }

  lemma {:induction false} StreamOrdered(calls: seq<Call>)
    ensures Ordered(Stream(calls))
  {
    if calls != [] {
      StreamOrdered(calls[..|calls| - 1]);
      ExtendOrdered(Stream(calls[..|calls| - 1]), calls[|calls| - 1]);
    }
  }

  /** A call is accepted when its timestamp is not below the last event's. */
  lemma {:induction false} PreviousIsLargest(calls: seq<Call>)
    ensures Previous(Stream(calls)) >= -1
    ensures forall k :: 0 <= k < |calls| ==> calls[k].ts <= Previous(Stream(calls))
    ensures Previous(Stream(calls)) > -1 ==> exists k :: 0 <= k < |calls| && calls[k].ts == Previous(Stream(calls))
  {
    if calls != [] {
      var rest, m := calls[..|calls| - 1], |calls| - 1;
      PreviousIsLargest(rest);
      StreamOrdered(rest);
      ExtendTimes(Stream(rest), calls[m], 0);
      if k :| 0 <= k < |rest| && rest[k].ts == Previous(Stream(rest)) {
        assert calls[k].ts == Previous(Stream(rest));
      }
      assert calls[m].ts <= Previous(Stream(calls));
    }
  }

  /** The events are exactly those of the accepted calls. */
  lemma {:induction false} EventsAreAccepted(calls: seq<Call>, ts: int)
    ensures HasEvent(Stream(calls), ts) <==> HasAccepted(calls, ts)
  {
    if calls != [] {
      var rest, m := calls[..|calls| - 1], |calls| - 1;
      EventsAreAccepted(rest, ts);
      StreamOrdered(rest);
      PreviousIsLargest(rest);
      ExtendTimes(Stream(rest), calls[m], ts);
      AcceptedGrows(calls, ts);
    }
  }

  /** With one more call, an accepted timestamp stays so, and the call may add its own. */
  lemma AcceptedGrows(calls: seq<Call>, ts: int)
    requires calls != []
    ensures HasAccepted(calls, ts) <==>
            HasAccepted(calls[..|calls| - 1], ts) || (ts == calls[|calls| - 1].ts && Accepted(calls, |calls| - 1))
  {
    var rest := calls[..|calls| - 1];
    if j :| 0 <= j < |rest| && rest[j].ts == ts && Accepted(rest, j) {
      assert calls[j].ts == ts && Accepted(calls, j);
    }
    if j :| 0 <= j < |calls| && calls[j].ts == ts && Accepted(calls, j) {
      if j < |rest| {
        assert rest[j].ts == ts && Accepted(rest, j);
      }
    }
  }

  /** An event holds, under each name, what the last accepted call about it supplied. */
  lemma {:induction false} LastSupplierWins(calls: seq<Call>, j: nat, d: Name, i: nat)
    requires j < |calls| && LastSupplier(calls, j, d) && d != TIMESTAMP
    requires i < |Stream(calls)| && Stream(calls)[i].ts == calls[j].ts
    ensures d in Stream(calls)[i].event && Stream(calls)[i].event[d] == calls[j].data[d]
  {
    var rest, m := calls[..|calls| - 1], |calls| - 1;
    StreamOrdered(rest);
    if j == m {
      PreviousReached(rest, calls[m].ts);
      NewestWins(Stream(rest), calls[m], d, i);
    } else {
      SupplierInPrefix(calls, j, d);
      EventsAreAccepted(rest, calls[j].ts);
      assert rest[j] == calls[j];
      EventStays(Stream(rest), calls[m], i, calls[j].ts);
      LastSupplierWins(rest, j, d, i);
      SupplierKept(calls, j, d);
    }
  }

  /** A later call about the same event does not replace what the last supplier gave. */
  lemma SupplierKept(calls: seq<Call>, j: nat, d: Name)
    requires j < |calls| - 1 && LastSupplier(calls, j, d)
    ensures calls[|calls| - 1].ts == calls[j].ts == Previous(Stream(calls[..|calls| - 1])) ==>
            d !in calls[|calls| - 1].data
  {
    PreviousIsLargest(calls[..|calls| - 1]);
    if calls[|calls| - 1].ts == calls[j].ts == Previous(Stream(calls[..|calls| - 1])) {
      assert Accepted(calls, |calls| - 1);
    }
  }

  lemma PreviousReached(calls: seq<Call>, ts: int)
    requires ts > -1 && forall k :: 0 <= k < |calls| ==> calls[k].ts <= ts
    ensures Previous(Stream(calls)) <= ts
  {
    PreviousIsLargest(calls);
  }

  lemma SupplierInPrefix(calls: seq<Call>, j: nat, d: Name)
    requires j < |calls| - 1 && LastSupplier(calls, j, d)
    ensures LastSupplier(calls[..|calls| - 1], j, d)
  {
    var rest := calls[..|calls| - 1];
    forall k | j < k < |rest| && Accepted(rest, k) && rest[k].ts == rest[j].ts
      ensures d !in rest[k].data
    {
      assert Accepted(calls, k);
    }
  }

  /** No accepted call but the first about an event supplies its timestamp itself. */
  predicate StampKept(calls: seq<Call>, ts: int) {
    forall j, k | 0 <= j < k < |calls| && calls[j].ts == ts == calls[k].ts && Accepted(calls, j) &&
      Accepted(calls, k) ::
      TIMESTAMP !in calls[k].data
  }

  /** Then the event records it, whatever the first call supplied under that name. */
  lemma {:induction false} TimestampIsRecorded(calls: seq<Call>, i: nat)
    requires i < |Stream(calls)| && StampKept(calls, Stream(calls)[i].ts)
    ensures TIMESTAMP in Stream(calls)[i].event
    ensures Stream(calls)[i].event[TIMESTAMP] == IntVal(Stream(calls)[i].ts)
  {
    var rest, m := calls[..|calls| - 1], |calls| - 1;
    var ts := Stream(calls)[i].ts;
    StreamOrdered(rest);
    PreviousIsLargest(rest);
    if HasEvent(Stream(rest), ts) {
      EventStays(Stream(rest), calls[m], i, ts);
      StampKeptBefore(calls, ts);
      TimestampIsRecorded(rest, i);
      if calls[m].ts == ts == Previous(Stream(rest)) {
        LaterCall(calls, ts);
      }
    } else {
      EventIsNew(Stream(rest), calls[m], i, ts);
    }
  }

  lemma StampKeptBefore(calls: seq<Call>, ts: int)
    requires calls != [] && StampKept(calls, ts)
    ensures StampKept(calls[..|calls| - 1], ts)
  {
    var rest := calls[..|calls| - 1];
    forall j, k | 0 <= j < k < |rest| && rest[j].ts == ts == rest[k].ts && Accepted(rest, j) && Accepted(rest, k)
      ensures TIMESTAMP !in rest[k].data
    {
      assert Accepted(calls, j) && Accepted(calls, k);
    }
  }

  /** A call about the last event is not the first one about it. */
  lemma LaterCall(calls: seq<Call>, ts: int)
    requires calls != [] && calls[|calls| - 1].ts == ts == Previous(Stream(calls[..|calls| - 1])) > -1
    requires StampKept(calls, ts)
    ensures TIMESTAMP !in calls[|calls| - 1].data
  {
    var rest, m := calls[..|calls| - 1], |calls| - 1;
    PreviousIsLargest(rest);
    StreamOrdered(rest);
    assert HasEvent(Stream(rest), ts) by { assert Stream(rest)[|Stream(rest)| - 1].ts == ts; }
    EventsAreAccepted(rest, ts);
    var j :| 0 <= j < |rest| && rest[j].ts == ts && Accepted(rest, j);
    assert calls[j].ts == ts && Accepted(calls, j) && Accepted(calls, m);
  }

  predicate HasSupplier(calls: seq<Call>, ts: int, d: Name) {
    exists j :: 0 <= j < |calls| && calls[j].ts == ts && Accepted(calls, j) && d in calls[j].data
  }

  /** And nothing else: what an event holds, an accepted call about it supplied. */
  lemma {:induction false} NothingInvented(calls: seq<Call>, d: Name, i: nat)
    requires i < |Stream(calls)| && d in Stream(calls)[i].event && d != TIMESTAMP
    ensures HasSupplier(calls, Stream(calls)[i].ts, d)
  {
    var rest, m := calls[..|calls| - 1], |calls| - 1;
    var ts := Stream(calls)[i].ts;
    StreamOrdered(rest);
    PreviousIsLargest(rest);
    if HasEvent(Stream(rest), ts) {
      EventStays(Stream(rest), calls[m], i, ts);
      if d in Stream(rest)[i].event {
        NothingInvented(rest, d, i);
        SupplierGrows(calls, ts, d);
      } else {
        NewSupplier(calls, ts, d);
      }
    } else {
      EventIsNew(Stream(rest), calls[m], i, ts);
      NewSupplier(calls, ts, d);
    }
  }

  lemma EventIsNew(stream: seq<Stamped>, call: Call, i: nat, ts: int)
    requires Ordered(stream) && !HasEvent(stream, ts)
    requires i < |Extend(stream, call)| && Extend(stream, call)[i].ts == ts
    ensures ts == call.ts > Previous(stream)
    ensures Extend(stream, call)[i].event == call.data[TIMESTAMP := IntVal(ts)]
  {
  }

  lemma NewSupplier(calls: seq<Call>, ts: int, d: Name)
    requires calls != [] && d in calls[|calls| - 1].data && calls[|calls| - 1].ts == ts > -1
    requires Previous(Stream(calls[..|calls| - 1])) <= ts
    ensures HasSupplier(calls, ts, d)
  {
    PreviousIsLargest(calls[..|calls| - 1]);
    assert Accepted(calls, |calls| - 1);
  }

  lemma SupplierGrows(calls: seq<Call>, ts: int, d: Name)
    requires calls != [] && HasSupplier(calls[..|calls| - 1], ts, d)
    ensures HasSupplier(calls, ts, d)
  {
    var rest := calls[..|calls| - 1];
    var j :| 0 <= j < |rest| && rest[j].ts == ts && Accepted(rest, j) && d in rest[j].data;
    assert calls[j].ts == ts && Accepted(calls, j);
  }

  /** Merging into the last event leaves the events before it. */
  lemma EventsExtend(stream: seq<Stamped>, call: Call)
    ensures call.ts > Previous(stream) ==>
              Events(Extend(stream, call)) == Events(stream) + [call.data[TIMESTAMP := IntVal(call.ts)]]
    ensures call.ts == Previous(stream) && stream != [] ==>
              Events(Extend(stream, call)) == Events(stream[..|stream| - 1]) + [stream[|stream| - 1].event + call.data]
  {
    var s' := Extend(stream, call);
    if call.ts > Previous(stream) {
      assert s'[..|s'| - 1] == stream;
    } else if call.ts == Previous(stream) && stream != [] {
      assert s'[..|s'| - 1] == stream[..|stream| - 1];
    }
  }

  lemma MergeLast(stream: seq<Stamped>, call: Call, shipped: seq<Event>, batch: seq<Event>)
    requires stream != [] && batch != [] && shipped + batch == Events(stream) && call.ts == Previous(stream)
    ensures var last := |batch| - 1;
            shipped + (batch[..last] + [batch[last] + call.data]) == Events(Extend(stream, call))
  {
    EventsExtend(stream, call);
    assert shipped + batch == (shipped + batch[..|batch| - 1]) + [batch[|batch| - 1]];
  }

  lemma FlattenAppend(batches: seq<seq<Event>>, batch: seq<Event>)
    ensures Flatten(batches + [batch]) == Flatten(batches) + batch
  {
    assert (batches + [batch])[..|batches|] == batches;
  }

  /** A client. What it sends goes to its server in order. */
  class SmallData {
    const batchSize: nat
    var batch: seq<Event>
    var previousTimestamp: int
    var sent: seq<Message>
    ghost var batches: seq<seq<Event>>
    ghost var calls: seq<Call>

    /** Nothing is lost or reordered, and only full batches are sent. */
    ghost predicate Valid()
      reads this
    {
      && Flatten(batches) + batch == Events(Stream(calls))
      && previousTimestamp == Previous(Stream(calls))
      && (batchSize > 0 ==> |batch| <= batchSize && forall i :: 0 <= i < |batches| ==> |batches[i]| == batchSize)
      && sent == Sent(batches)
    }

    /** Between calls the last event is still here, for more calls about it. */
    ghost predicate Open()
      reads this
    {
      Valid() && (batch == [] <==> Stream(calls) == [])
    }

    constructor (batchSize: nat)
      ensures Open() && calls == [] && this.batchSize == batchSize
    {
      this.batchSize := batchSize;
      batch, sent, batches, calls := [], [], [], [];
      previousTimestamp := -1;
    }

    method Ship()
      requires Valid() && |batch| >= batchSize
      modifies this`sent, this`batches, this`batch
      ensures Valid() && batch == []
    {
      FlattenAppend(batches, batch);
      sent := sent + [Batch(batch)];
      batches := batches + [batch];
      assert batches[..|batches| - 1] == old(batches);
      batch := [];
    }

    /** More data for the last event. */
    method Merge(data: Event)
      requires Open() && batch != []
      modifies this`batch, this`calls
      ensures Open() && calls == old(calls) + [Call(previousTimestamp, data)]
    {
      MergeLast(Stream(calls), Call(previousTimestamp, data), Flatten(batches), batch);
      calls := calls + [Call(previousTimestamp, data)];
      assert calls[..|calls| - 1] == old(calls);
      var last := |batch| - 1;
      batch := batch[..last] + [batch[last] + data];
    }

    /** A new event, after shipping a full batch. */
    method Begin(timestamp: int, data: Event)
      requires Open() && timestamp > previousTimestamp
      modifies this
      ensures Open() && calls == old(calls) + [Call(timestamp, data)]
    {
      if |batch| >= batchSize {
        Ship();
      }
      Add(timestamp, data);
    }

    method Add(timestamp: int, data: Event)
      requires Valid() && timestamp > previousTimestamp && (batchSize > 0 ==> |batch| < batchSize)
      modifies this`calls, this`previousTimestamp, this`batch
      ensures Open() && calls == old(calls) + [Call(timestamp, data)]
    {
      EventsExtend(Stream(calls), Call(timestamp, data));
      calls := calls + [Call(timestamp, data)];
      assert calls[..|calls| - 1] == old(calls);
      previousTimestamp := timestamp;
      assert (Flatten(batches) + batch) + [data[TIMESTAMP := IntVal(timestamp)]]
          == Flatten(batches) + (batch + [data[TIMESTAMP := IntVal(timestamp)]]);
      batch := batch + [data[TIMESTAMP := IntVal(timestamp)]];
    }

    /** False stands for the IndexError of a first call about timestamp -1. */
    method Event(timestamp: int, data: Event) returns (ok: bool)
      requires Open()
      modifies this
      ensures Open() && ok == !(timestamp == -1 && Stream(old(calls)) == [])
      ensures calls == old(calls) + [Call(timestamp, data)]
    {
      ok := true;
      if timestamp == previousTimestamp && batch != [] {
        Merge(data);
      } else if timestamp > previousTimestamp {
        Begin(timestamp, data);
      } else {
        ok := timestamp < previousTimestamp;
        calls := calls + [Call(timestamp, data)];
        assert calls[..|calls| - 1] == old(calls);
      }
    }

    /** Send what is left and say so. */
    method Done()
      requires Open()
      modifies this
      ensures sent == Sent(batches) + [Finished] && calls == old(calls)
      ensures Flatten(batches) == Events(Stream(calls))
    {
      if |batch| > 0 {
        sent := sent + [Batch(batch)];
        FlattenAppend(batches, batch);
        batches := batches + [batch];
        assert batches[..|batches| - 1] == old(batches);
      }
      sent := sent + [Finished];
    }
  }
}
