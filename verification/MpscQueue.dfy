/** The lock-free multi-producer single-consumer ring queue of
    psdaq/drp/mpscqueue.cc, as a machine whose actions are the atomic
    operations of push and pop under sequential consistency. */
module MpscQueue {
  import opened Runs
  import Bits

  /** A pushed pointer, as its address. */
  type Value = nat

  /** Where one call of push stands. A call is known by its ticket, so any
      number of producer threads may be in any of these places at once. */
  datatype Phase =
    | Drawn       // cursor.fetch_add done, slot not yet written
    | Stored      // ring slot written, spinning on write_index
    | Spun        // saw write_index == ticket
    | Published   // write_index stored, read_index not yet loaded
    | Notifying   // saw read_index == ticket, about to lock and notify
    | Finished

  datatype Push = Push(value: Value, phase: Phase)

  /** Where the single consumer stands inside pop. */
  datatype Consumer =
    | Idle
    | Checking(index: nat)      // read_index loaded
    | Locked(index: nat)        // holds the mutex, about to test is_empty
    | FallingAsleep(index: nat) // is_empty held; still owns the mutex
    | Asleep(index: nat)        // inside the condition wait, mutex released
    | Taking(index: nat)        // about to read the slot
    | Taken(index: nat, value: Value)

  /** k is the logarithm of the capacity; pushes lists every ticket drawn. */
  datatype State = State(
    k: nat, cursor: nat, writeIndex: nat, readIndex: nat, ring: seq<Value>,
    pushes: seq<Push>, consumer: Consumer, popped: seq<Value>)

  datatype Action =
    | Draw(value: Value)
    | Store(ticket: nat)
    | Spin(ticket: nat)
    | Publish(ticket: nat)
    | Compare(ticket: nat)
    | Notify(ticket: nat)
    | BeginPop
    | TestWriteIndex
    | TestEmpty
    | Sleep
    | SpuriousWake
    | Read
    | Advance

  function Capacity(k: nat): (c: nat)
    ensures c > 0
  {
    Bits.Pow2(k)
  }

  /** slot & buffer_mask */
  function Slot(k: nat, ticket: nat): (i: nat)
    ensures i == ticket % Capacity(k)
  {
    Bits.AndMask(ticket, k);
    Bits.And(ticket, Capacity(k) - 1)
  }

  predicate HoldsLock(c: Consumer) {
    c.Locked? || c.FallingAsleep?
  }

  predicate At(s: State, t: nat, p: Phase) {
    t < |s.pushes| && s.pushes[t].phase == p
  }

  function Moved(s: State, t: nat, p: Phase): State
    requires t < |s.pushes|
  {
    s.(pushes := s.pushes[t := s.pushes[t].(phase := p)])
  }

  /** One atomic operation. As in push, a ticket is drawn and its slot written
      whether or not the queue has room. */
  function Step(s: State, a: Action): Option<State> {
    match a
    case Draw(v) => Some(s.(cursor := s.cursor + 1, pushes := s.pushes + [Push(v, Drawn)]))
    case Store(t) =>
      if !At(s, t, Drawn) || |s.ring| != Capacity(s.k) then None
      else Some(Moved(s.(ring := s.ring[Slot(s.k, t) := s.pushes[t].value]), t, Stored))
    case Spin(t) =>
      if !At(s, t, Stored) || t != s.writeIndex then None
      else Some(Moved(s, t, Spun))
    case Publish(t) =>
      if !At(s, t, Spun) then None
      else Some(Moved(s.(writeIndex := t + 1), t, Published))
    case Compare(t) =>
      if !At(s, t, Published) then None
      else Some(Moved(s, t, if t == s.readIndex then Notifying else Finished))
    case Notify(t) =>
      if !At(s, t, Notifying) || HoldsLock(s.consumer) then None
      else
        var woken := if s.consumer.Asleep? then Locked(s.consumer.index) else s.consumer;
        Some(Moved(s.(consumer := woken), t, Finished))
    case BeginPop =>
      if !s.consumer.Idle? then None
      else Some(s.(consumer := Checking(s.readIndex)))
    case TestWriteIndex =>
      if !s.consumer.Checking? then None
      else
        var i := s.consumer.index;
        Some(s.(consumer := if i == s.writeIndex then Locked(i) else Taking(i)))
    case TestEmpty =>
      if !s.consumer.Locked? then None
      else
        var i := s.consumer.index;
        Some(s.(consumer := if s.readIndex == s.writeIndex then FallingAsleep(i) else Taking(i)))
    case Sleep =>
      if !s.consumer.FallingAsleep? then None
      else Some(s.(consumer := Asleep(s.consumer.index)))
    case SpuriousWake =>
      if !s.consumer.Asleep? then None
      else Some(s.(consumer := Locked(s.consumer.index)))
    case Read =>
      if !s.consumer.Taking? || |s.ring| != Capacity(s.k) then None
      else
        var i := s.consumer.index;
        Some(s.(consumer := Taken(i, s.ring[Slot(s.k, i)])))
    case Advance =>
      if !s.consumer.Taken? then None
      else Some(s.(readIndex := s.consumer.index + 1, consumer := Idle,
                   popped := s.popped + [s.consumer.value]))
  }

  ghost predicate Initial(s: State) {
    && s.cursor == s.writeIndex == s.readIndex == 0
    && |s.ring| == Capacity(s.k)
    && s.pushes == [] && s.popped == [] && s.consumer == Idle
  }

  predicate Unpublished(p: Phase) {
    p.Drawn? || p.Stored? || p.Spun?
  }

  function Values(ps: seq<Push>): (vs: seq<Value>)
    ensures |vs| == |ps| && forall i :: 0 <= i < |ps| ==> vs[i] == ps[i].value
  {
    seq(|ps|, i requires 0 <= i < |ps| => ps[i].value)
  }

  /** The first ticket whose slot the consumer has yet to read. */
  function NextRead(s: State): nat {
    if s.consumer.Taken? then s.readIndex + 1 else s.readIndex
  }

  ghost predicate Indices(s: State) {
    s.readIndex <= s.writeIndex <= s.cursor == |s.pushes| && Capacity(s.k) == |s.ring| && |s.popped| == s.readIndex
  }

  /** Tickets publish in order, and only the one at write_index may be past its spin. */
  ghost predicate Phases(s: State) {
    forall t :: 0 <= t < |s.pushes| ==>
      && (Unpublished(s.pushes[t].phase) <==> t >= s.writeIndex)
      && (s.pushes[t].phase.Spun? ==> t == s.writeIndex)
  }

  ghost predicate ConsumerOk(s: State) {
    && (!s.consumer.Idle? ==> s.consumer.index == s.readIndex)
    && (s.consumer.Taking? || s.consumer.Taken? ==> s.readIndex < s.writeIndex)
  }

  /** A consumer that has decided to sleep on a non-empty queue is owed a
      notification by the producer of the very ticket it waits for. */
  ghost predicate WakeUpOwed(s: State)
    requires Indices(s)
  {
    (s.consumer.FallingAsleep? || s.consumer.Asleep?) && s.readIndex < s.writeIndex ==>
      s.pushes[s.readIndex].phase.Published? || s.pushes[s.readIndex].phase.Notifying?
  }

  /** What holds in every run, however full the queue. */
  ghost predicate Inv(s: State) {
    Indices(s) && Phases(s) && ConsumerOk(s) && WakeUpOwed(s)
  }

  /** Ticket t is written, and its slot not read yet. */
  predicate Waiting(s: State, t: nat) {
    NextRead(s) <= t < |s.pushes| && !s.pushes[t].phase.Drawn?
  }

  /** Every written, unread ticket still sits in its own slot, within a capacity of
      the next one to be read. */
  ghost predicate Slots(s: State)
    requires Indices(s)
  {
    forall t: nat {:trigger Waiting(s, t)} :: Waiting(s, t) ==>
      t < NextRead(s) + Capacity(s.k) && s.ring[Slot(s.k, t)] == s.pushes[t].value
  }

  /** Nothing was lost so far. */
  ghost predicate Kept(s: State)
    requires Inv(s)
  {
    && Slots(s) && s.popped == Values(s.pushes[..s.readIndex])
    && (s.consumer.Taken? ==> s.consumer.value == s.pushes[s.readIndex].value)
  }

  /** The store is less than a capacity ahead of the next ticket to be read. */
  predicate InTime(s: State, a: Action) {
    a.Store? ==> a.ticket < NextRead(s) + Capacity(s.k)
  }

  /** Every store of the schedule is. */
  predicate OnTime(s0: State, acts: seq<Action>) {
    acts == []
    || (var before := acts[..|acts| - 1];
        OnTime(s0, before)
        && (Exec(Step, s0, acts).Some? ==> InTime(Exec(Step, s0, before).value, acts[|acts| - 1])))
  }

  /** Two tickets less than a capacity apart never share a slot. */
  lemma SlotsDiffer(k: nat, i: nat, j: nat)
    requires i < j < i + Capacity(k)
    ensures Slot(k, i) != Slot(k, j)
  {
    Bits.ModDiffer(i, j, Capacity(k));
  }

  /** A store is in time exactly when no unread ticket before it has its slot. */
  lemma InTimeIsUnshared(s: State, t: nat)
    ensures InTime(s, Store(t)) <==> forall u {:trigger Slot(s.k, u)} :: NextRead(s) <= u < t ==>
            Slot(s.k, u) != Slot(s.k, t)
  {
    var c := Capacity(s.k);
    if t < NextRead(s) + c {
      forall u {:trigger Slot(s.k, u)} | NextRead(s) <= u < t ensures Slot(s.k, u) != Slot(s.k, t) {
        SlotsDiffer(s.k, u, t);
      }
    } else {
      SameSlot(s.k, t - c);
    }
  }

  lemma SameSlot(k: nat, t: nat)
    ensures Slot(k, t + Capacity(k)) == Slot(k, t)
  {
    var c := Capacity(k);
    assert t == c * (t / c) + t % c;
    Bits.ModUnique(t + c, c, t / c + 1, t % c);
  }

  lemma StepKeepsInv(s: State, a: Action)
    requires Inv(s) && Step(s, a).Some?
    ensures Inv(Step(s, a).value)
  {
  }

  lemma StoreKeepsSlots(s: State, t: nat)
    requires Inv(s) && Kept(s) && At(s, t, Drawn) && InTime(s, Store(t))
    ensures Inv(Step(s, Store(t)).value) && Slots(Step(s, Store(t)).value)
  {
    var s' := Step(s, Store(t)).value;
    StepKeepsInv(s, Store(t));
    forall u: nat {:trigger Waiting(s', u)} | Waiting(s', u)
      ensures u < NextRead(s) + Capacity(s.k) && s'.ring[Slot(s.k, u)] == s'.pushes[u].value
    {
      if u != t {
        assert Waiting(s, u);
        SlotsDiffer(s.k, if u < t then u else t, if u < t then t else u);
      }
    }
  }

  /** Any operation but a store too early keeps everything. */
  lemma StepKeeps(s: State, a: Action)
    requires Inv(s) && Kept(s) && Step(s, a).Some? && InTime(s, a)
    ensures Inv(Step(s, a).value) && Kept(Step(s, a).value)
  {
    var s' := Step(s, a).value;
    StepKeepsInv(s, a);
    if a.Store? {
      StoreKeepsSlots(s, a.ticket);
    } else {
      forall t: nat {:trigger Waiting(s', t)} | Waiting(s', t)
        ensures t < NextRead(s') + Capacity(s.k) && s'.ring[Slot(s.k, t)] == s'.pushes[t].value
      {
        assert Waiting(s, t);
      }
    }
    if a.Read? {
      assert Waiting(s, s.readIndex);
    }
    if a.Advance? {
      assert s'.pushes[..s'.readIndex] == s.pushes[..s.readIndex] + [s.pushes[s.readIndex]];
    } else {
      assert Values(s'.pushes[..s.readIndex]) == Values(s.pushes[..s.readIndex]);
    }
  }

  lemma Reachable(s0: State, acts: seq<Action>)
    requires Initial(s0)
    ensures Exec(Step, s0, acts).Some? ==> Inv(Exec(Step, s0, acts).value)
  {
    forall s: State, a: Action {:trigger Step(s, a)} | Inv(s) && Step(s, a).Some? ensures Inv(Step(s, a).value) {
      StepKeepsInv(s, a);
    }
    Invariant(Step, Inv, s0, acts);
  }

  lemma {:induction false} ReachableKept(s0: State, acts: seq<Action>)
    requires Initial(s0) && OnTime(s0, acts)
    ensures Exec(Step, s0, acts).Some? ==> Inv(Exec(Step, s0, acts).value) && Kept(Exec(Step, s0, acts).value)
  {
    if acts != [] && Exec(Step, s0, acts).Some? {
      var before := acts[..|acts| - 1];
      ReachableKept(s0, before);
      StepKeeps(Exec(Step, s0, before).value, acts[|acts| - 1]);
    }
  }

  /** The values handed to push in a schedule, in ticket order. */
  function DrawnValues(acts: seq<Action>): seq<Value>
  {
    if acts == [] then []
    else
      var last := acts[|acts| - 1];
      DrawnValues(acts[..|acts| - 1]) + if last.Draw? then [last.value] else []
  }

  lemma {:induction false} PushesAreDrawn(s0: State, acts: seq<Action>)
    requires Initial(s0)
    ensures var r := Exec(Step, s0, acts);
            r.Some? ==> Values(r.value.pushes) == DrawnValues(acts)
  {
    if acts != [] && Exec(Step, s0, acts).Some? {
      var before := acts[..|acts| - 1];
      var a := acts[|acts| - 1];
      PushesAreDrawn(s0, before);
      var s := Exec(Step, s0, before).value;
      assert Exec(Step, s0, acts) == Step(s, a);
      var s' := Step(s, a).value;
      if !a.Draw? {
        assert Values(s'.pushes) == Values(s.pushes);
      }
    }
  }

  /** The pointers now buffered: published and not yet read. */
  function Buffered(s: State): seq<Value>
    requires |s.ring| == Capacity(s.k)
  {
    var n := NextRead(s);
    if n <= s.writeIndex then seq(s.writeIndex - n, i requires 0 <= i < s.writeIndex - n => s.ring[Slot(s.k, n + i)])
    else []
  }

  function InHand(c: Consumer): seq<Value> {
    if c.Taken? then [c.value] else []
  }

  lemma PoppedAndBuffered(s: State)
    requires Inv(s) && Kept(s)
    ensures s.popped + InHand(s.consumer) + Buffered(s) == Values(s.pushes[..s.writeIndex])
    ensures s.writeIndex <= NextRead(s) + Capacity(s.k)
  {
    var n := NextRead(s);
    forall t | n <= t < s.writeIndex ensures Waiting(s, t) {
    }
    forall i | 0 <= i < s.writeIndex - n
      ensures Buffered(s)[i] == s.pushes[n + i].value
    {
      assert Waiting(s, n + i);
    }
    if n < s.writeIndex {
      assert Waiting(s, s.writeIndex - 1);
    }
    assert s.popped + InHand(s.consumer) + Buffered(s) == Values(s.pushes[..s.writeIndex]);
  }

  /** In every run whose stores are in time the j-th pop returns the pointer pushed
      under ticket j, and what was popped, what is in the consumer's hand and what is
      buffered is exactly what was published: nothing lost, duplicated, reordered or
      overwritten before being read. */
  lemma FirstInFirstOut(s0: State, acts: seq<Action>)
    requires Initial(s0) && OnTime(s0, acts)
    ensures var r := Exec(Step, s0, acts);
            r.Some? ==>
              var s := r.value;
              && s.readIndex <= s.writeIndex <= s.cursor == |DrawnValues(acts)|
              && s.writeIndex <= NextRead(s) + Capacity(s.k) == NextRead(s) + |s.ring|
              && s.popped == DrawnValues(acts)[..s.readIndex]
              && s.popped + InHand(s.consumer) + Buffered(s) == DrawnValues(acts)[..s.writeIndex]
  {
    ReachableKept(s0, acts);
    PushesAreDrawn(s0, acts);
    var r := Exec(Step, s0, acts);
    if r.Some? {
      var s := r.value;
      PoppedAndBuffered(s);
      assert Values(s.pushes[..s.writeIndex]) == DrawnValues(acts)[..s.writeIndex];
      assert Values(s.pushes[..s.readIndex]) == DrawnValues(acts)[..s.readIndex];
    }
  }

  /** Every ticket of the schedule is drawn while fewer than the capacity are outstanding. */
  predicate DrawsWithin(s0: State, acts: seq<Action>) {
    acts == []
    || (var before := acts[..|acts| - 1];
        DrawsWithin(s0, before)
        && (Exec(Step, s0, before).Some? && acts[|acts| - 1].Draw? ==>
              var s := Exec(Step, s0, before).value;
              s.cursor < s.readIndex + Capacity(s.k)))
  }

  lemma OneMoreWithin(s: State, a: Action)
    requires Inv(s) && Step(s, a).Some? && s.cursor <= s.readIndex + Capacity(s.k)
    requires a.Draw? ==> s.cursor < s.readIndex + Capacity(s.k)
    ensures InTime(s, a)
    ensures var s' := Step(s, a).value; s'.cursor <= s'.readIndex + Capacity(s'.k)
  {
  }

  /** Producers that keep to the capacity store in time. */
  lemma {:induction false} WithinCapacityIsOnTime(s0: State, acts: seq<Action>)
    requires Initial(s0) && DrawsWithin(s0, acts)
    ensures OnTime(s0, acts)
    ensures var r := Exec(Step, s0, acts); r.Some? ==> r.value.cursor <= r.value.readIndex + Capacity(r.value.k)
  {
    if acts != [] {
      var before := acts[..|acts| - 1];
      WithinCapacityIsOnTime(s0, before);
      Reachable(s0, before);
      if Exec(Step, s0, acts).Some? {
        OneMoreWithin(Exec(Step, s0, before).value, acts[|acts| - 1]);
      }
    }
  }

  predicate Distinct(vs: seq<Value>) {
    forall i, j :: 0 <= i < j < |vs| ==> vs[i] != vs[j]
  }

  /** Ticket v's pointer is lost: its slot holds another, or the consumer got another. */
  ghost predicate Lost(s: State, v: nat)
    requires Inv(s)
  {
    && v < |s.pushes| && !s.pushes[v].phase.Drawn?
    && if v < s.readIndex then s.popped[v] != s.pushes[v].value
       else if v < NextRead(s) then s.consumer.value != s.pushes[v].value
       else s.ring[Slot(s.k, v)] != s.pushes[v].value
  }

  /** Ticket t was written over the slot of an earlier one that is still to be written. */
  ghost predicate Doomed(s: State, u: nat, t: nat)
    requires Inv(s)
  {
    u < t < |s.pushes| && s.pushes[u].phase.Drawn? && !s.pushes[t].phase.Drawn? && Slot(s.k, u) == Slot(s.k, t)
  }

  ghost predicate Spoiled(s: State)
    requires Inv(s)
  {
    (exists v: nat :: Lost(s, v)) || exists u: nat, t: nat :: Doomed(s, u, t)
  }

  /** What is lost stays lost, if no two pointers are equal. */
  lemma LostForGood(s: State, a: Action, v: nat)
    requires Inv(s) && Lost(s, v) && Step(s, a).Some? && Distinct(Values(s.pushes))
    ensures Inv(Step(s, a).value) && Lost(Step(s, a).value, v)
  {
    StepKeepsInv(s, a);
    if a.Store? {
      assert a.ticket != v && Values(s.pushes)[a.ticket] != Values(s.pushes)[v];
    }
  }

  lemma DoomedIsLost(s: State, a: Action, u: nat, t: nat)
    requires Inv(s) && Doomed(s, u, t) && Step(s, a).Some? && Distinct(Values(s.pushes))
    ensures Inv(Step(s, a).value) && Spoiled(Step(s, a).value)
  {
    var s' := Step(s, a).value;
    StepKeepsInv(s, a);
    if a == Store(u) {
      assert Values(s.pushes)[u] != Values(s.pushes)[t];
      assert Lost(s', t);
    } else {
      assert Doomed(s', u, t);
    }
  }

  /** A store too early spoils the run. */
  lemma EarlyStoreSpoils(s: State, t: nat)
    requires Inv(s) && At(s, t, Drawn) && !InTime(s, Store(t)) && Distinct(Values(s.pushes))
    ensures Inv(Step(s, Store(t)).value) && Spoiled(Step(s, Store(t)).value)
  {
    var s' := Step(s, Store(t)).value;
    var u := t - Capacity(s.k);
    StepKeepsInv(s, Store(t));
    SameSlot(s.k, u);
    if s.pushes[u].phase.Drawn? {
      assert Doomed(s', u, t);
    } else {
      assert Values(s.pushes)[u] != Values(s.pushes)[t];
      assert Lost(s', u);
    }
  }

  lemma SpoiledStays(s: State, a: Action)
    requires Inv(s) && Spoiled(s) && Step(s, a).Some? && Distinct(Values(s.pushes))
    ensures Inv(Step(s, a).value) && Spoiled(Step(s, a).value)
  {
    if v: nat :| Lost(s, v) {
      LostForGood(s, a, v);
    } else {
      var u: nat, t: nat :| Doomed(s, u, t);
      DoomedIsLost(s, a, u, t);
    }
  }

  lemma {:induction false} EarlyIsSpoiled(s0: State, acts: seq<Action>)
    requires Initial(s0) && !OnTime(s0, acts) && Exec(Step, s0, acts).Some? && Distinct(DrawnValues(acts))
    ensures Inv(Exec(Step, s0, acts).value) && Spoiled(Exec(Step, s0, acts).value)
  {
    var before, a := acts[..|acts| - 1], acts[|acts| - 1];
    var s := Exec(Step, s0, before).value;
    Reachable(s0, before);
    PushesAreDrawn(s0, before);
    assert Distinct(DrawnValues(before)) by {
      assert DrawnValues(before) <= DrawnValues(acts);
    }
    if OnTime(s0, before) {
      EarlyStoreSpoils(s, a.ticket);
    } else {
      EarlyIsSpoiled(s0, before);
      SpoiledStays(s, a);
    }
  }

  /** When everything pushed has been popped and the pointers differ, they were popped
      in ticket order, each once, if and only if every store was in time. */
  lemma PoppedInOrderIffOnTime(s0: State, acts: seq<Action>)
    requires Initial(s0) && Exec(Step, s0, acts).Some? && Distinct(DrawnValues(acts))
    requires var s := Exec(Step, s0, acts).value; s.readIndex == s.cursor
    ensures Exec(Step, s0, acts).value.popped == DrawnValues(acts) <==> OnTime(s0, acts)
  {
    var s := Exec(Step, s0, acts).value;
    Reachable(s0, acts);
    PushesAreDrawn(s0, acts);
    if OnTime(s0, acts) {
      FirstInFirstOut(s0, acts);
    } else {
      EarlyIsSpoiled(s0, acts);
      assert forall u: nat, t: nat :: !Doomed(s, u, t);
      var v: nat :| Lost(s, v);
      assert s.popped[v] != Values(s.pushes)[v];
    }
  }

  /** No lost wake-up: a consumer asleep on a non-empty queue always has a
      producer that published and has yet to notify, and that producer's next
      operation is enabled; so with no push in flight it is not asleep. */
  lemma NoLostWakeUp(s0: State, acts: seq<Action>)
    requires Initial(s0)
    ensures var r := Exec(Step, s0, acts);
            r.Some? && r.value.consumer.Asleep? && r.value.readIndex != r.value.writeIndex ==>
              var s := r.value;
              var t := s.readIndex;
              && t < s.writeIndex
              && (|| (At(s, t, Published) && Step(s, Compare(t)).Some? && At(Step(s, Compare(t)).value, t, Notifying))
                  || (At(s, t, Notifying) && Step(s, Notify(t)).Some? &&
                    Step(s, Notify(t)).value.consumer == Locked(t)))
  {
    Reachable(s0, acts);
  }

  /** The consumer's next operation, when it is not asleep. */
  function ConsumerMove(c: Consumer): Action
  {
    match c
    case Idle => BeginPop
    case Checking(_) => TestWriteIndex
    case Locked(_) => TestEmpty
    case FallingAsleep(_) => Sleep
    case Asleep(_) => SpuriousWake
    case Taking(_) => Read
    case Taken(_, _) => Advance
  }

  /** Nobody blocks for good: the push holding the lowest unpublished ticket can
      always act, so can every push past its spin once the mutex is free, and the
      consumer is blocked only while asleep. */
  ghost predicate SomeoneActs(s: State)
  {
    && s.writeIndex <= |s.pushes|
    && (s.writeIndex < s.cursor ==>
          var t := s.writeIndex;
          Step(s, Store(t)).Some? || Step(s, Spin(t)).Some? || Step(s, Publish(t)).Some?)
    && (forall t {:trigger s.pushes[t]} :: 0 <= t < s.writeIndex && s.pushes[t].phase != Finished ==>
          Step(s, Compare(t)).Some? || Step(s, Notify(t)).Some? || HoldsLock(s.consumer))
    && (s.consumer.Asleep? || Step(s, ConsumerMove(s.consumer)).Some?)
  }

  lemma SomeoneCanAct(s0: State, acts: seq<Action>)
    requires Initial(s0)
    ensures Exec(Step, s0, acts).Some? ==> SomeoneActs(Exec(Step, s0, acts).value)
  {
    Reachable(s0, acts);
  }

  lemma Then(s0: State, acts: seq<Action>, s: State, a: Action)
    requires Exec(Step, s0, acts) == Some(s)
    ensures Exec(Step, s0, acts + [a]) == Step(s, a)
  {
    assert (acts + [a])[..|acts|] == acts;
  }

  /** A queue of one pointer, v, and a second ticket drawn for w. */
  function Overfull(v: Value, w: Value): State {
    State(0, 2, 1, 0, [v], [Push(v, Published), Push(w, Drawn)], Idle, [])
  }

  /** After v's ticket is drawn. */
  function WithFirst(v: Value, at: Phase, writeIndex: nat, slot: Value): State {
    State(0, 1, writeIndex, 0, [slot], [Push(v, at)], Idle, [])
  }

  lemma FirstSteps(v: Value, w: Value)
    ensures Step(State(0, 0, 0, 0, [0], [], Idle, []), Draw(v)) == Some(WithFirst(v, Drawn, 0, 0))
    ensures Step(WithFirst(v, Drawn, 0, 0), Store(0)) == Some(WithFirst(v, Stored, 0, v))
    ensures Step(WithFirst(v, Stored, 0, v), Spin(0)) == Some(WithFirst(v, Spun, 0, v))
    ensures Step(WithFirst(v, Spun, 0, v), Publish(0)) == Some(WithFirst(v, Published, 1, v))
    ensures Step(WithFirst(v, Published, 1, v), Draw(w)) == Some(Overfull(v, w))
  {
    assert Capacity(0) == 1 && Slot(0, 0) == 0;
    assert [] + [Push(v, Drawn)] == [Push(v, Drawn)] && [0][0 := v] == [v];
    assert [Push(v, Drawn)][0 := Push(v, Stored)] == [Push(v, Stored)];
    assert [Push(v, Stored)][0 := Push(v, Spun)] == [Push(v, Spun)];
    assert [Push(v, Spun)][0 := Push(v, Published)] == [Push(v, Published)];
    assert [Push(v, Published)] + [Push(w, Drawn)] == [Push(v, Published), Push(w, Drawn)];
  }

  lemma OverfullRun(v: Value, w: Value) returns (s0: State, acts: seq<Action>)
    ensures Initial(s0) && Exec(Step, s0, acts) == Some(Overfull(v, w)) && DrawnValues(acts) == [v, w]
  {
    s0 := State(0, 0, 0, 0, [0], [], Idle, []);
    assert Capacity(0) == 1;
    FirstSteps(v, w);
    var s1, s2, s3, s4 := WithFirst(v, Drawn, 0, 0), WithFirst(v, Stored, 0, v), WithFirst(v, Spun, 0, v),
      WithFirst(v, Published, 1, v);
    acts := FourSteps(s0, [], Draw(v), Store(0), Spin(0), Publish(0), s0, s1, s2, s3, s4);
    acts := Do(s0, acts, s4, Draw(w), Overfull(v, w));
  }

  /** The second ticket's store. */
  lemma LateStore(v: Value, w: Value, readIndex: nat, popped: seq<Value>)
    ensures var s := Overfull(v, w).(readIndex := readIndex, popped := popped);
            Step(s, Store(1)) == Some(s.(ring := [w], pushes := [Push(v, Published), Push(w, Stored)]))
  {
    assert Capacity(0) == 1 && Slot(0, 1) == 0 && [v][0 := w] == [w];
    assert [Push(v, Published), Push(w, Drawn)][1 := Push(w, Stored)] == [Push(v, Published), Push(w, Stored)];
  }

  lemma Do(s0: State, acts: seq<Action>, s: State, a: Action, t: State) returns (acts': seq<Action>)
    requires Exec(Step, s0, acts) == Some(s) && Step(s, a) == Some(t)
    ensures Exec(Step, s0, acts') == Some(t)
    ensures DrawnValues(acts') == DrawnValues(acts) + Ticketed(a)
  {
    acts' := acts + [a];
    Then(s0, acts, s, a);
    DrawnAppend(acts, a);
  }

  lemma DrawnAppend(acts: seq<Action>, a: Action)
    ensures DrawnValues(acts + [a]) == DrawnValues(acts) + Ticketed(a)
  {
    assert (acts + [a])[..|acts|] == acts;
  }

  /** push has no full check: storing the second ticket before the first is read makes
      pop return the second pointer for the first; storing it after loses nothing. */
  lemma OneTooManyLoses(v: Value, w: Value) returns (s0: State, early: seq<Action>, late: seq<Action>)
    requires v != w
    ensures Initial(s0) && DrawnValues(early) == DrawnValues(late) == [v, w]
    ensures Exec(Step, s0, early).Some? && Exec(Step, s0, early).value.popped == [w] && !OnTime(s0, early)
    ensures Exec(Step, s0, late).Some? && Exec(Step, s0, late).value.popped == [v]
    ensures Exec(Step, s0, late).value.ring == [w] && At(Exec(Step, s0, late).value, 1, Stored)
  {
    var acts: seq<Action>, t: State;
    s0, acts := OverfullRun(v, w);
    assert Capacity(0) == 1;
    var s, pushes := Overfull(v, w), [Push(v, Published), Push(w, Stored)];
    LateStore(v, w, 0, []);
    early := Do(s0, acts, s, Store(1), s.(ring := [w], pushes := pushes));
    early, t := PopOne(s0, early, s.(ring := [w], pushes := pushes), w);
    assert t.popped == [w] && t.popped[0] == w;
    if OnTime(s0, early) {
      FirstInFirstOut(s0, early);
    }
    late, t := PopOne(s0, acts, s, v);
    LateStore(v, w, 1, [v]);
    late := Do(s0, late, t, Store(1), t.(ring := [w], pushes := pushes));
  }

  /** The operations of a pop that does not wait. */
  lemma PopSteps(s: State, v: Value)
    requires s.consumer == Idle && s.readIndex != s.writeIndex
    requires |s.ring| == Capacity(s.k) && s.ring[Slot(s.k, s.readIndex)] == v
    ensures Step(s, BeginPop) == Some(s.(consumer := Checking(s.readIndex)))
    ensures Step(s.(consumer := Checking(s.readIndex)), TestWriteIndex) == Some(s.(consumer := Taking(s.readIndex)))
    ensures Step(s.(consumer := Taking(s.readIndex)), Read) == Some(s.(consumer := Taken(s.readIndex, v)))
    ensures Step(s.(consumer := Taken(s.readIndex, v)), Advance)
         == Some(s.(readIndex := s.readIndex + 1, popped := s.popped + [v]))
  {
  }

  function Ticketed(a: Action): seq<Value> {
    if a.Draw? then [a.value] else []
  }

  /** Four given steps. */
  lemma FourSteps(s0: State, acts: seq<Action>, a: Action, b: Action, c: Action, d: Action,
                  s: State, t: State, u: State, v: State, w: State) returns (r: seq<Action>)
    requires Exec(Step, s0, acts) == Some(s)
    requires Step(s, a) == Some(t) && Step(t, b) == Some(u) && Step(u, c) == Some(v) && Step(v, d) == Some(w)
    ensures Exec(Step, s0, r) == Some(w)
    ensures DrawnValues(r) == DrawnValues(acts) + Ticketed(a) + Ticketed(b) + Ticketed(c) + Ticketed(d)
  {
    r := Do(s0, acts, s, a, t);
    r := Do(s0, r, t, b, u);
    r := Do(s0, r, u, c, v);
    r := Do(s0, r, v, d, w);
  }

  /** One pop of a queue that holds a pointer. */
  lemma PopOne(s0: State, acts: seq<Action>, s: State, v: Value) returns (r: seq<Action>, t: State)
    requires Exec(Step, s0, acts) == Some(s) && s.consumer == Idle && s.readIndex < s.writeIndex
    requires |s.ring| == Capacity(s.k) && s.ring[Slot(s.k, s.readIndex)] == v
    ensures DrawnValues(r) == DrawnValues(acts) && Exec(Step, s0, r) == Some(t)
    ensures t == s.(readIndex := s.readIndex + 1, popped := s.popped + [v])
  {
    PopSteps(s, v);
    t := s.(readIndex := s.readIndex + 1, popped := s.popped + [v]);
    r := FourSteps(s0, acts, BeginPop, TestWriteIndex, Read, Advance, s, s.(consumer := Checking(s.readIndex)),
                   s.(consumer := Taking(s.readIndex)), s.(consumer := Taken(s.readIndex, v)), t);
  }

  ghost predicate MaskIsInjective(capacity: nat)
    requires capacity > 0
  {
    forall i, j {:trigger Bits.And(i, capacity - 1), Bits.And(j, capacity - 1)} ::
      0 <= i < j < capacity ==> Bits.And(i, capacity - 1) != Bits.And(j, capacity - 1)
  }

  /** A mask with a zero bit below its top bit sends that bit to slot 0. */
  lemma {:induction false} ZeroBit(m: nat) returns (j: nat)
    requires m > 0 && !Bits.IsPow2(m + 1)
    ensures 0 < j <= m && Bits.And(j, m) == 0
  {
    if m % 2 == 0 {
      j := 1;
      assert Bits.And(0, m / 2) == 0;
    } else {
      forall k: nat ensures m / 2 + 1 != Bits.Pow2(k) {
        assert m + 1 != Bits.Pow2(k + 1);
      }
      assert m != 1 by { assert Bits.Pow2(1) == 2; }
      var j' := ZeroBit(m / 2);
      j := 2 * j';
    }
  }

  /** The capacity handed to the constructor gives every ticket of a full
      queue its own slot if and only if it is a power of two. */
  lemma MaskNeedsPowerOfTwo(capacity: nat)
    requires capacity > 0
    ensures MaskIsInjective(capacity) <==> Bits.IsPow2(capacity)
  {
    if Bits.IsPow2(capacity) {
      var k: nat :| capacity == Bits.Pow2(k);
      forall i, j {:trigger Bits.And(i, capacity - 1), Bits.And(j, capacity - 1)} | 0 <= i < j < capacity
        ensures Bits.And(i, capacity - 1) != Bits.And(j, capacity - 1)
      {
        SlotsDiffer(k, i, j);
      }
    } else {
      assert capacity != 1 by { assert Bits.Pow2(0) == 1; }
      var j := ZeroBit(capacity - 1);
      assert Bits.And(0, capacity - 1) == Bits.And(j, capacity - 1);
    }
  }

  /** The queue object. Each method is one atomic operation of push or pop;
      pushes, consumer and popped are the threads' program counters and history. */
  class MPSCQueue {
    var cursor: nat
    var writeIndex: nat
    var readIndex: nat
    var bufferMask: nat
    var ringbuffer: array<Value>
    ghost var k: nat
    ghost var pushes: seq<Push>
    ghost var consumer: Consumer
    ghost var popped: seq<Value>

    ghost function View(): State
      reads this, ringbuffer
    {
      State(k, cursor, writeIndex, readIndex, ringbuffer[..], pushes, consumer, popped)
    }

    ghost predicate Valid()
      reads this, ringbuffer
    {
      Inv(View()) && bufferMask == Capacity(k) - 1
    }

    constructor (capacity: nat, ghost log2: nat)
      requires capacity == Bits.Pow2(log2)
      ensures Valid() && Initial(View()) && k == log2 && fresh(ringbuffer)
    {
      cursor, writeIndex, readIndex := 0, 0, 0;
      bufferMask := capacity - 1;
      ringbuffer := new Value[capacity](i => 0);
      k := log2;
      pushes, consumer, popped := [], Idle, [];
    }

    method DrawTicket(value: Value) returns (slot: nat)
      requires Valid()
      modifies this
      ensures Valid() && ringbuffer == old(ringbuffer)
      ensures slot == old(cursor) && Some(View()) == Step(old(View()), Draw(value))
    {
      StepKeepsInv(View(), Draw(value));
      slot := cursor;
      cursor := cursor + 1;
      pushes := pushes + [Push(value, Drawn)];
    }

    method StoreSlot(slot: nat, value: Value)
      requires Valid() && At(View(), slot, Drawn) && value == pushes[slot].value
      modifies this, ringbuffer
      ensures Valid() && ringbuffer == old(ringbuffer)
      ensures Some(View()) == Step(old(View()), Store(slot))
      ensures old(Kept(View()) && InTime(View(), Store(slot))) ==> Kept(View())
    {
      StepKeepsInv(View(), Store(slot));
      if Kept(View()) && InTime(View(), Store(slot)) {
        StepKeeps(View(), Store(slot));
      }
      Bits.AndMask(slot, k);
      ghost var before := View();
      ringbuffer[Bits.And(slot, bufferMask)] := value;
      pushes := pushes[slot := pushes[slot].(phase := Stored)];
      assert View() == Step(before, Store(slot)).value;
    }

    /** One evaluation of the spin condition. */
    method TrySpin(slot: nat) returns (through: bool)
      requires Valid() && At(View(), slot, Stored)
      modifies this
      ensures Valid() && ringbuffer == old(ringbuffer)
      ensures through <==> slot == writeIndex
      ensures through ==> Some(View()) == Step(old(View()), Spin(slot))
      ensures !through ==> View() == old(View())
    {
      through := slot == writeIndex;
      if through {
        StepKeepsInv(View(), Spin(slot));
        pushes := pushes[slot := pushes[slot].(phase := Spun)];
      }
    }

    method StoreWriteIndex(slot: nat)
      requires Valid() && At(View(), slot, Spun)
      modifies this
      ensures Valid() && ringbuffer == old(ringbuffer)
      ensures Some(View()) == Step(old(View()), Publish(slot))
    {
      StepKeepsInv(View(), Publish(slot));
      writeIndex := slot + 1;
      pushes := pushes[slot := pushes[slot].(phase := Published)];
    }

    method CompareReadIndex(slot: nat) returns (signal: bool)
      requires Valid() && At(View(), slot, Published)
      modifies this
      ensures Valid() && ringbuffer == old(ringbuffer)
      ensures signal <==> slot == readIndex
      ensures At(View(), slot, if slot == old(readIndex) then Notifying else Finished)
      ensures Some(View()) == Step(old(View()), Compare(slot))
    {
      StepKeepsInv(View(), Compare(slot));
      signal := slot == readIndex;
      pushes := pushes[slot := pushes[slot].(phase := if signal then Notifying else Finished)];
    }

    /** lock, notify_one, unlock: possible only while the consumer does not own the mutex. */
    ghost method NotifyOne(slot: nat)
      requires Valid() && At(View(), slot, Notifying) && !HoldsLock(consumer)
      modifies this
      ensures Valid() && ringbuffer == old(ringbuffer)
      ensures Some(View()) == Step(old(View()), Notify(slot))
      ensures !consumer.Asleep?
    {
      StepKeepsInv(View(), Notify(slot));
      consumer := if consumer.Asleep? then Locked(consumer.index) else consumer;
      pushes := pushes[slot := pushes[slot].(phase := Finished)];
    }

    method LoadReadIndex() returns (index: nat)
      requires Valid() && consumer.Idle?
      modifies this
      ensures Valid() && ringbuffer == old(ringbuffer)
      ensures index == |popped| && Some(View()) == Step(old(View()), BeginPop)
    {
      StepKeepsInv(View(), BeginPop);
      index := readIndex;
      consumer := Checking(index);
    }

    /** The test that decides whether pop takes the mutex. */
    method LoadWriteIndex(index: nat) returns (empty: bool)
      requires Valid() && consumer == Checking(index)
      modifies this
      ensures Valid() && ringbuffer == old(ringbuffer)
      ensures empty <==> Buffered(View()) == []
      ensures Some(View()) == Step(old(View()), TestWriteIndex)
    {
      StepKeepsInv(View(), TestWriteIndex);
      empty := index == writeIndex;
      consumer := if empty then Locked(index) else Taking(index);
    }

    /** The wait predicate, evaluated under the mutex. */
    method IsEmpty() returns (empty: bool)
      requires Valid() && consumer.Locked?
      modifies this
      ensures Valid() && ringbuffer == old(ringbuffer)
      ensures empty <==> Buffered(View()) == []
      ensures Some(View()) == Step(old(View()), TestEmpty)
    {
      StepKeepsInv(View(), TestEmpty);
      empty := readIndex == writeIndex;
      consumer := if empty then FallingAsleep(readIndex) else Taking(readIndex);
    }

    method LoadSlot() returns (value: Value)
      requires Valid() && consumer.Taking?
      modifies this
      ensures Valid() && ringbuffer == old(ringbuffer)
      ensures Some(View()) == Step(old(View()), Read)
      ensures old(Kept(View())) ==> value == pushes[readIndex].value
    {
      StepKeepsInv(View(), Read);
      if Kept(View()) {
        StepKeeps(View(), Read);
      }
      Bits.AndMask(readIndex, k);
      value := ringbuffer[Bits.And(readIndex, bufferMask)];
      consumer := Taken(readIndex, value);
    }

    method StoreReadIndex()
      requires Valid() && consumer.Taken?
      modifies this
      ensures Valid() && ringbuffer == old(ringbuffer)
      ensures Some(View()) == Step(old(View()), Advance)
      ensures old(Kept(View())) ==> popped == Values(pushes[..readIndex])
    {
      StepKeepsInv(View(), Advance);
      if Kept(View()) {
        StepKeeps(View(), Advance);
      }
      popped := popped + [consumer.value];
      readIndex := readIndex + 1;
      consumer := Idle;
    }
  }
}
