/** Several clients, several servers, one joined file: psana/psana/smalldata.py end to end. */
module SmallDataRun {
  import opened SmallDataTable
  import opened SmallDataClient
  import Join = SmallDataJoin
  import SmallDataServer

  /** A message in a server's receiving order, with the client it is from. */
  datatype Arrival = Arrival(client: nat, message: Message)

  datatype Tagged = Tagged(client: nat, event: Event)

  function Messages(arrivals: seq<Arrival>): (r: seq<Message>)
    ensures |r| == |arrivals|
  {
    if arrivals == [] then [] else Messages(arrivals[..|arrivals| - 1]) + [arrivals[|arrivals| - 1].message]
  }

  /** The messages of one client, in order. */
  function From(arrivals: seq<Arrival>, client: nat): seq<Message> {
    if arrivals == [] then []
    else
      var last := arrivals[|arrivals| - 1];
      var rest := From(arrivals[..|arrivals| - 1], client);
      if last.client == client then rest + [last.message] else rest
  }

  function Tag(client: nat, events: seq<Event>): (r: seq<Tagged>)
    ensures |r| == |events|
    ensures forall i :: 0 <= i < |r| ==> r[i] == Tagged(client, events[i])
  {
    seq(|events|, i requires 0 <= i < |events| => Tagged(client, events[i]))
  }

  /** The events a server handles, each with its client. */
  function Handled(arrivals: seq<Arrival>): seq<Tagged> {
    if arrivals == [] then []
    else
      var last := arrivals[|arrivals| - 1];
      var rest := Handled(arrivals[..|arrivals| - 1]);
      if last.message.Batch? then rest + Tag(last.client, last.message.events) else rest
  }

  function Of(events: seq<Tagged>, client: nat): seq<Event> {
    if events == [] then []
    else
      var last := events[|events| - 1];
      var rest := Of(events[..|events| - 1], client);
      if last.client == client then rest + [last.event] else rest
  }

  function Untagged(events: seq<Tagged>): (r: seq<Event>)
    ensures |r| == |events| && forall i :: 0 <= i < |r| ==> r[i] == events[i].event
  {
    seq(|events|, i requires 0 <= i < |events| => events[i].event)
  }

  lemma {:induction false} OfConcat(a: seq<Tagged>, b: seq<Tagged>, client: nat)
    ensures Of(a + b, client) == Of(a, client) + Of(b, client)
  {
    if b == [] {
      assert a + b == a;
    } else {
      var b' := b[..|b| - 1];
      OfConcat(a, b', client);
      assert (a + b)[..|a + b| - 1] == a + b';
    }
  }

  lemma {:induction false} OfTag(owner: nat, events: seq<Event>, client: nat)
    ensures Of(Tag(owner, events), client) == (if owner == client then events else [])
  {
    if events != [] {
      OfTag(owner, events[..|events| - 1], client);
      assert Tag(owner, events)[..|events| - 1] == Tag(owner, events[..|events| - 1]);
    }
  }

  /** What a server handles is, client by client, what that client sent. */
  lemma {:induction false} HandledByClient(arrivals: seq<Arrival>, client: nat)
    ensures Of(Handled(arrivals), client) == Received(From(arrivals, client))
  {
    if arrivals != [] {
      var rest, last := arrivals[..|arrivals| - 1], arrivals[|arrivals| - 1];
      HandledByClient(rest, client);
      OneMore(From(rest, client), last.message);
      if last.message.Batch? {
        var tagged := Tag(last.client, last.message.events);
        OfConcat(Handled(rest), tagged, client);
        OfTag(last.client, last.message.events, client);
        if last.client != client {
          assert Of(Handled(rest), client) + [] == Of(Handled(rest), client);
        }
      }
    }
  }

  lemma {:induction false} HandledUntagged(arrivals: seq<Arrival>)
    ensures Untagged(Handled(arrivals)) == Received(Messages(arrivals))
  {
    if arrivals != [] {
      var rest, last := arrivals[..|arrivals| - 1], arrivals[|arrivals| - 1];
      HandledUntagged(rest);
      OneMore(Messages(rest), last.message);
      if last.message.Batch? {
        var tagged := Tag(last.client, last.message.events);
        assert Untagged(Handled(rest) + tagged) == Untagged(Handled(rest)) + last.message.events;
      }
    }
  }

  lemma {:induction false} ReceivedSent(batches: seq<seq<Event>>)
    ensures Received(Sent(batches)) == Flatten(batches)
    ensures Received(Sent(batches) + [Finished]) == Flatten(batches)
    ensures Finishes(Sent(batches)) == 0 && Finishes(Sent(batches) + [Finished]) == 1
  {
    if batches != [] {
      ReceivedSent(batches[..|batches| - 1]);
      assert Sent(batches)[..|Sent(batches)| - 1] == Sent(batches[..|batches| - 1]);
    }
    assert (Sent(batches) + [Finished])[..|Sent(batches)|] == Sent(batches);
  }

  /** Finish messages, counted client by client. */
  function FinishesByClient(arrivals: seq<Arrival>, n: nat): nat {
    if n == 0 then 0 else FinishesByClient(arrivals, n - 1) + Finishes(From(arrivals, n - 1))
  }

  lemma {:induction false} FinishesSplit(arrivals: seq<Arrival>, n: nat)
    requires arrivals != []
    ensures var last := arrivals[|arrivals| - 1];
            FinishesByClient(arrivals, n) == FinishesByClient(arrivals[..|arrivals| - 1], n)
              + if last.client < n && last.message.Finished? then 1 else 0
  {
    if n > 0 {
      FinishesSplit(arrivals, n - 1);
      OneMore(From(arrivals[..|arrivals| - 1], n - 1), arrivals[|arrivals| - 1].message);
    }
  }

  lemma {:induction false} FinishesCounted(arrivals: seq<Arrival>, n: nat)
    requires forall i :: 0 <= i < |arrivals| ==> arrivals[i].client < n
    ensures Finishes(Messages(arrivals)) == FinishesByClient(arrivals, n)
  {
    if arrivals == [] {
      NoArrivals(n);
    } else {
      FinishesCounted(arrivals[..|arrivals| - 1], n);
      FinishesSplit(arrivals, n);
    }
  }

  lemma {:induction false} NoArrivals(n: nat)
    ensures FinishesByClient([], n) == 0
  {
    if n > 0 {
      NoArrivals(n - 1);
    }
  }

  /** A client's messages end with its one finish message. */
  predicate EndsOnce(messages: seq<Message>) {
    messages != [] && messages[|messages| - 1].Finished? && Finishes(messages) == 1
  }

  /** Each client's messages arrive, in the order it sent them. */
  ghost predicate Complete(arrivals: seq<Arrival>, sent: seq<seq<Message>>) {
    && (forall i :: 0 <= i < |arrivals| ==> arrivals[i].client < |sent|)
    && forall c :: 0 <= c < |sent| ==> From(arrivals, c) == sent[c] && EndsOnce(sent[c])
  }

  lemma {:induction false} OneEach(arrivals: seq<Arrival>, n: nat)
    requires forall c :: 0 <= c < n ==> Finishes(From(arrivals, c)) == 1
    ensures FinishesByClient(arrivals, n) == n
  {
    if n > 0 {
      OneEach(arrivals, n - 1);
    }
  }

  /** A prefix of the arrivals holds a prefix of each client's messages. */
  lemma {:induction false} FromPrefix(arrivals: seq<Arrival>, k: nat, client: nat)
    requires k <= |arrivals|
    ensures From(arrivals[..k], client) <= From(arrivals, client)
    ensures k < |arrivals| && arrivals[k].client == client ==>
              |From(arrivals[..k], client)| < |From(arrivals, client)|
    decreases |arrivals|
  {
    if k < |arrivals| {
      var rest := arrivals[..|arrivals| - 1];
      FromPrefix(rest, k, client);
      assert rest[..k] == arrivals[..k];
    } else {
      assert arrivals[..k] == arrivals;
    }
  }

  lemma {:induction false} AtMostOneEach(arrivals: seq<Arrival>, n: nat, missing: nat)
    requires forall c :: 0 <= c < n ==> Finishes(From(arrivals, c)) <= 1
    requires missing < n ==> Finishes(From(arrivals, missing)) == 0
    ensures FinishesByClient(arrivals, n) <= n
    ensures missing < n ==> FinishesByClient(arrivals, n) < n
  {
    if n > 0 {
      AtMostOneEach(arrivals, n - 1, missing);
    }
  }

  lemma FinishesPrefix(sent: seq<Message>, m: seq<Message>)
    requires EndsOnce(sent) && m <= sent
    ensures Finishes(m) == if m == sent then 1 else 0
  {
    var n := |sent| - 1;
    if |m| <= n {
      assert m == sent[..n][..|m|];
      FinishesMonotone(sent[..n], |m|);
    }
  }

  lemma {:induction false} FinishesMonotone(m: seq<Message>, k: nat)
    requires k <= |m|
    ensures Finishes(m[..k]) <= Finishes(m)
  {
    if k < |m| {
      FinishesMonotone(m[..|m| - 1], k);
      assert m[..|m| - 1][..k] == m[..k];
    } else {
      assert m[..k] == m;
    }
  }

  /** The server's loop ends with the last message, and not before it. */
  lemma EveryMessageIsRead(arrivals: seq<Arrival>, sent: seq<seq<Message>>, k: nat)
    requires Complete(arrivals, sent) && k <= |arrivals|
    ensures Finishes(Messages(arrivals[..k])) == |sent| <==> k == |arrivals|
  {
    var n := |sent|;
    forall c | 0 <= c < n
      ensures Finishes(From(arrivals, c)) == 1 && Finishes(From(arrivals[..k], c)) <= 1
    {
      FromPrefix(arrivals, k, c);
      FinishesPrefix(sent[c], From(arrivals[..k], c));
    }
    FinishesCounted(arrivals[..k], n);
    if k == |arrivals| {
      assert arrivals[..k] == arrivals;
      OneEach(arrivals, n);
    } else {
      var c := arrivals[k].client;
      FromPrefix(arrivals, k, c);
      FinishesPrefix(sent[c], From(arrivals[..k], c));
      AtMostOneEach(arrivals[..k], n, c);
    }
  }

  lemma {:induction false} MessagesPrefix(arrivals: seq<Arrival>, k: nat)
    requires k <= |arrivals|
    ensures Messages(arrivals)[..k] == Messages(arrivals[..k])
    decreases |arrivals|
  {
    if k < |arrivals| {
      var rest := arrivals[..|arrivals| - 1];
      MessagesPrefix(rest, k);
      assert rest[..k] == arrivals[..k];
    } else {
      assert arrivals[..k] == arrivals;
    }
  }

  /** Some call is a first one about timestamp -1. */
  predicate Fails(calls: seq<Call>) {
    exists j :: 0 <= j < |calls| && FailsAt(calls, j)
  }

  predicate FailsAt(calls: seq<Call>, j: nat)
    requires j < |calls|
  {
    calls[j].ts == -1 && Stream(calls[..j]) == []
  }

  /** The messages of a client that made these calls and closed. */
  ghost predicate IsSentFor(messages: seq<Message>, calls: seq<Call>) {
    EndsOnce(messages) && Received(messages) == Events(Stream(calls))
  }

  method MakeCall(client: SmallData, calls: seq<Call>, i: nat) returns (ok: bool)
    requires client.Open() && i < |calls| && client.calls == calls[..i]
    modifies client
    ensures client.Open() && client.calls == calls[..i + 1]
    ensures ok <==> !FailsAt(calls, i)
  {
    ok := client.Event(calls[i].ts, calls[i].data);
    assert calls[..i + 1] == calls[..i] + [calls[i]];
  }

  method MakeCalls(client: SmallData, calls: seq<Call>) returns (ok: bool)
    requires client.Open() && client.calls == []
    modifies client
    ensures ok <==> !Fails(calls)
    ensures ok ==> client.Open() && client.calls == calls
  {
    for i := 0 to |calls|
      invariant client.Open() && client.calls == calls[..i]
      invariant forall j :: 0 <= j < i ==> !FailsAt(calls, j)
    {
      ok := MakeCall(client, calls, i);
      if !ok {
        return;
      }
    }
    assert calls[..|calls|] == calls;
    return true;
  }

  method Close(client: SmallData)
    requires client.Open()
    modifies client
    ensures IsSentFor(client.sent, old(client.calls))
  {
    client.Done();
    ReceivedSent(client.batches);
  }

  /** A client's whole run. An IndexError ends it early. */
  method RunClient(calls: seq<Call>, batchSize: nat) returns (ok: bool, sent: seq<Message>)
    ensures ok <==> !Fails(calls)
    ensures ok ==> IsSentFor(sent, calls)
  {
    var client := new SmallData(batchSize);
    ok := MakeCalls(client, calls);
    if ok {
      Close(client);
    }
    return ok, client.sent;
  }

  /** A server's whole run: however its clients' messages interleave, all are read and
      the file holds the ideal table of them. */
  method RunServer(arrivals: seq<Arrival>, ghost sent: seq<seq<Message>>, numClients: nat, cacheSize: nat)
    returns (dsets: map<Name, DType>, rows: map<Name, seq<Value>>)
    requires Complete(arrivals, sent) && numClients == |sent| && cacheSize > 0
    ensures Faithful(rows, dsets, Received(Messages(arrivals)))
  {
    var server := new SmallDataServer.Server(cacheSize);
    EveryMessageIsRead(arrivals, sent, |arrivals|);
    assert arrivals[..|arrivals|] == arrivals;
    var used := server.RecvLoop(Messages(arrivals), numClients);
    MessagesPrefix(arrivals, used);
    EveryMessageIsRead(arrivals, sent, used);
    assert used == |arrivals|;
    server.Done();
    assert server.seen == Received(Messages(arrivals));
    return server.dsets, server.file;
  }

  /** One server's part of a finished run: the calls its clients made, the messages they
      sent and as they arrived, and the file it closed. */
  datatype Part = Part(calls: seq<seq<Call>>, sent: seq<seq<Message>>, arrivals: seq<Arrival>,
                       dsets: map<Name, DType>, rows: map<Name, seq<Value>>)
  {
    /** The events the server saw. */
    function Events(): seq<Event> {
      Received(Messages(arrivals))
    }

    /** What RunClient and RunServer leave. */
    ghost predicate Closed() {
      && |calls| == |sent| && Complete(arrivals, sent)
      && (forall c :: 0 <= c < |calls| ==> IsSentFor(sent[c], calls[c]))
      && Faithful(rows, dsets, Events())
    }
  }

  /** Each client's merged events reach its server in order, and nothing else does. */
  lemma PartIsItsClients(p: Part, c: nat)
    requires p.Closed() && c < |p.calls|
    ensures Of(Handled(p.arrivals), c) == Events(Stream(p.calls[c]))
    ensures Untagged(Handled(p.arrivals)) == p.Events()
  {
    HandledByClient(p.arrivals, c);
    HandledUntagged(p.arrivals);
  }

  lemma {:induction false} TaggedIsOf(events: seq<Tagged>, i: nat)
    requires i < |events|
    ensures events[i].event in Of(events, events[i].client)
  {
    if i < |events| - 1 {
      TaggedIsOf(events[..|events| - 1], i);
    }
  }

  lemma {:induction false} KnownClient(arrivals: seq<Arrival>, i: nat)
    requires i < |Handled(arrivals)|
    ensures exists k :: 0 <= k < |arrivals| && arrivals[k].client == Handled(arrivals)[i].client
  {
    var n := |arrivals| - 1;
    if i < |Handled(arrivals[..n])| {
      KnownClient(arrivals[..n], i);
      var k :| 0 <= k < n && arrivals[..n][k].client == Handled(arrivals)[i].client;
      assert arrivals[k].client == Handled(arrivals)[i].client;
    } else {
      assert arrivals[n].client == Handled(arrivals)[i].client;
    }
  }

  /** Every event a server sees records its timestamp, as the join needs. */
  lemma TimestampsArrive(p: Part, i: nat)
    requires p.Closed() && i < |p.Events()|
    ensures TIMESTAMP in p.Events()[i]
  {
    HandledUntagged(p.arrivals);
    KnownClient(p.arrivals, i);
    var c := Handled(p.arrivals)[i].client;
    TaggedIsOf(Handled(p.arrivals), i);
    PartIsItsClients(p, c);
    StreamOrdered(p.calls[c]);
  }

  ghost predicate AllClosed(parts: seq<Part>) {
    forall s :: 0 <= s < |parts| ==> parts[s].Closed()
  }

  function Files(parts: seq<Part>): (r: seq<Join.File>)
    ensures |r| == |parts| && forall s :: 0 <= s < |r| ==> r[s] == Join.Visit(parts[s].dsets, parts[s].rows)
  {
    seq(|parts|, s requires 0 <= s < |parts| => Join.Visit(parts[s].dsets, parts[s].rows))
  }

  function EventLists(parts: seq<Part>): (r: seq<seq<Event>>)
    ensures |r| == |parts| && forall s :: 0 <= s < |r| ==> r[s] == parts[s].Events()
  {
    seq(|parts|, s requires 0 <= s < |parts| => parts[s].Events())
  }

  lemma FilesAreWritten(parts: seq<Part>)
    requires AllClosed(parts)
    ensures Join.AllWritten(Files(parts), EventLists(parts))
  {
    forall s | 0 <= s < |parts|
      ensures Join.WrittenFor(Files(parts)[s], EventLists(parts)[s])
    {
      var p := parts[s];
      forall i | 0 <= i < |p.Events()| ensures TIMESTAMP in p.Events()[i] {
        TimestampsArrive(p, i);
      }
      Join.FaithfulIsWritten(p.dsets, p.rows, p.Events());
    }
  }

  /** The joined file of a finished run has exactly the datasets of the one list of all
      servers' events. A dataset is the ideal column of that list, row by row if it is
      aligned, if and only if the servers' types for it can be joined. */
  lemma EndToEnd(parts: seq<Part>, joined: Join.File, d: Name)
    requires AllClosed(parts) && joined.Keys == Join.AllNames(Files(parts))
    requires forall p :: p in joined ==> joined[p] == Join.JoinedDataset(Files(parts), p)
    ensures Promised(EventLists(parts), joined, d)
  {
    FilesAreWritten(parts);
    Join.AllNamesIsSome(Files(parts), Join.Rooted(d));
    Join.NameIsSomewhere(Files(parts), EventLists(parts), d);
    if d in Names(Flatten(EventLists(parts))) {
      Join.JoinedRows(Files(parts), EventLists(parts), d);
    }
  }

  ghost predicate Promised(events: seq<seq<Event>>, joined: Join.File, d: Name) {
    && (Join.Rooted(d) in joined <==> d in Names(Flatten(events)))
    && (d in Names(Flatten(events)) ==>
          (Join.IsColumnOf(joined[Join.Rooted(d)], Flatten(events), d) <==> Join.Joinable(events, d)))
  }

  /** One server's clients' calls, what RunClient gave for each, and how that arrived. */
  datatype Inbox = Inbox(calls: seq<seq<Call>>, sent: seq<seq<Message>>, arrivals: seq<Arrival>)
  {
    ghost predicate Good() {
      && |calls| == |sent| && Complete(arrivals, sent)
      && forall c :: 0 <= c < |calls| ==> IsSentFor(sent[c], calls[c])
    }
  }

  function InboxLists(inboxes: seq<Inbox>): (r: seq<seq<Event>>)
    ensures |r| == |inboxes| && forall s :: 0 <= s < |r| ==> r[s] == Received(Messages(inboxes[s].arrivals))
  {
    seq(|inboxes|, s requires 0 <= s < |inboxes| => Received(Messages(inboxes[s].arrivals)))
  }

  /** Every server runs, and the files are joined. */
  method Run(inboxes: seq<Inbox>, cacheSize: nat) returns (joined: Join.File)
    requires cacheSize > 0 && forall s :: 0 <= s < |inboxes| ==> inboxes[s].Good()
    ensures forall d :: Promised(InboxLists(inboxes), joined, d)
    ensures forall s, c :: 0 <= s < |inboxes| && 0 <= c < |inboxes[s].calls| ==>
              Of(Handled(inboxes[s].arrivals), c) == Events(Stream(inboxes[s].calls[c]))
  {
    var parts: seq<Part> := [];
    for s := 0 to |inboxes|
      invariant |parts| == s && AllClosed(parts)
      invariant forall k :: 0 <= k < s ==>
                parts[k].calls == inboxes[k].calls && parts[k].arrivals == inboxes[k].arrivals
    {
      var b := inboxes[s];
      var dsets, rows := RunServer(b.arrivals, b.sent, |b.sent|, cacheSize);
      parts := parts + [Part(b.calls, b.sent, b.arrivals, dsets, rows)];
    }
    joined := Join.JoinFiles(Files(parts));
    assert EventLists(parts) == InboxLists(inboxes);
    forall d ensures Promised(InboxLists(inboxes), joined, d) {
      EndToEnd(parts, joined, d);
    }
    forall s, c | 0 <= s < |inboxes| && 0 <= c < |inboxes[s].calls|
      ensures Of(Handled(inboxes[s].arrivals), c) == Events(Stream(inboxes[s].calls[c]))
    {
      PartIsItsClients(parts[s], c);
    }
  }
}
