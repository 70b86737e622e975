/** The server side of psana/psana/smalldata.py: per-dataset caches, backfilling
    and writing to the HDF5 file, whose datasets are sequences here. */
module SmallDataServer {
  import opened SmallDataTable
  import Client = SmallDataClient

  /** A dataset's cache: of the array's elements the first nEvents are this
      batch's, the rest may be old. */
  class CacheArray {
    const cacheSize: nat
    const dtype: DType
    const data: array<Value>
    var nEvents: nat
    ghost var contents: seq<Value>

    ghost predicate Valid()
      reads this, data
    {
      && data.Length == cacheSize && nEvents == |contents| <= cacheSize
      && forall i {:trigger contents[i]} :: 0 <= i < |contents| ==> contents[i] == data[i]
    }

    /** The cached rows complete those already written. */
    ghost predicate Holds(size: nat, t: DType, written: seq<Value>, rows: seq<Value>)
      reads this, data
    {
      Valid() && cacheSize == size && dtype == t && rows == written + contents
    }

    constructor (dtype: DType, cacheSize: nat)
      ensures Valid() && contents == [] && nEvents == 0 && fresh(data)
      ensures this.dtype == dtype && this.cacheSize == cacheSize
    {
      this.dtype := dtype;
      this.cacheSize := cacheSize;
      data := new Value[cacheSize](_ => NaN);
      nEvents := 0;
      contents := [];
    }

    /** Never out of range: the caller keeps the cache from being full. */
    method Append(v: Value)
      requires Valid() && nEvents < cacheSize
      modifies this`nEvents, this`contents, data
      ensures Valid() && nEvents == old(nEvents) + 1
      ensures contents == old(contents) + [Cast(dtype, v)]
    {
      data[nEvents] := Cast(dtype, v);
      nEvents := nEvents + 1;
      contents := contents + [Cast(dtype, v)];
    }

    method Reset()
      requires Valid()
      modifies this`nEvents, this`contents
      ensures Valid() && nEvents == 0 && contents == []
    {
      nEvents := 0;
      contents := [];
    }
  }

  /** What one event is to do: the type of every dataset known after it, the rows
      each had before it, and what the event adds to each. */
  datatype Plan = Plan(types: map<Name, DType>, base: Table, cell: Table)

  ghost function PlanOf(events: seq<Event>, e: Event): Plan {
    var all := Names(events + [e]);
    Plan(map d | d in all :: FirstType(events + [e], d),
         map d | d in all :: Column(events, d, FirstType(events + [e], d)),
         map d | d in all :: Cell(e, d, FirstType(events + [e], d)))
  }

  ghost predicate Covers(p: Plan, names: set<Name>) {
    names <= p.types.Keys && names <= p.base.Keys && names <= p.cell.Keys
  }

  /** Rows of a dataset that appears after n events. */
  function NewRows(d: Name, t: DType, n: nat): seq<Value> {
    if IsUnaligned(d) then [] else Fill(t, n)
  }

  /** Midway through an event: the datasets in done have its row already. */
  ghost predicate Midway(table: Table, dsets: map<Name, DType>, p: Plan, done: set<Name>) {
    && table.Keys == dsets.Keys && Covers(p, dsets.Keys)
    && forall d {:trigger OnPlan(table, dsets, p, done, d)} :: d in dsets ==> OnPlan(table, dsets, p, done, d)
  }

  ghost predicate OnPlan(table: Table, dsets: map<Name, DType>, p: Plan, done: set<Name>, d: Name)
    requires d in table && d in dsets && Covers(p, {d})
  {
    dsets[d] == p.types[d] && table[d] == p.base[d] + if d in done then p.cell[d] else []
  }

  /** The plan for the items of e, of which those not in known are new datasets. */
  ghost predicate PlansItems(p: Plan, e: Event, known: set<Name>, n: nat) {
    && Covers(p, e.Keys)
    && (forall d {:trigger p.cell[d]} :: d in e ==> p.cell[d] == [Cast(p.types[d], e[d])])
    && (forall d {:trigger p.types[d]} {:trigger p.base[d]} :: d in e && d !in known ==>
          p.types[d] == TypeOf(e[d]) && p.base[d] == NewRows(d, p.types[d], n))
  }

  /** The plan for datasets the event lacks. */
  ghost predicate PlansGaps(p: Plan, names: set<Name>) {
    && Covers(p, names)
    && forall d {:trigger p.cell[d]} :: d in names ==> p.cell[d] == if IsUnaligned(d) then [] else [Missing(p.types[d])]
  }

  lemma NamesAppend(events: seq<Event>, e: Event)
    ensures Names(events + [e]) == Names(events) + e.Keys
    ensures forall d :: d in Names(events) ==> FirstType(events + [e], d) == FirstType(events, d)
    ensures forall d :: d in e && d !in Names(events) ==> FirstType(events + [e], d) == TypeOf(e[d])
    ensures forall d, t :: Column(events + [e], d, t) == Column(events, d, t) + Cell(e, d, t)
  {
    assert (events + [e])[..|events|] == events;
  }

  /** Appending an item's datum, to a dataset known or just created, is one step of the plan. */
  lemma MidwayDatum(table: Table, dsets: map<Name, DType>, p: Plan, e: Event, known: set<Name>, n: nat,
                    done: set<Name>, d: Name)
    requires Midway(table, dsets, p, done) && PlansItems(p, e, known, n)
    requires d in e && d !in done && dsets.Keys == known + done
    ensures var t := TypeOf(e[d]);
            var ds := if d in dsets then dsets else dsets[d := t];
            var tb := if d in dsets then table else table[d := NewRows(d, t, n)];
            Midway(tb[d := tb[d] + [Cast(ds[d], e[d])]], ds, p, done + {d}) && ds.Keys == known + (done + {d})
  {
    var t := TypeOf(e[d]);
    var ds := if d in dsets then dsets else dsets[d := t];
    var tb := if d in dsets then table else table[d := NewRows(d, t, n)];
    var tb' := tb[d := tb[d] + [Cast(ds[d], e[d])]];
    forall x | x in ds ensures OnPlan(tb', ds, p, done + {d}, x) {
      assert x in dsets ==> OnPlan(table, dsets, p, done, x);
    }
  }

  /** So is backfilling a dataset the event lacks. */
  lemma MidwayGap(table: Table, dsets: map<Name, DType>, p: Plan, done: set<Name>, d: Name)
    requires Midway(table, dsets, p, done) && PlansGaps(p, {d}) && d in dsets && d !in done
    ensures Midway(if IsUnaligned(d) then table else table[d := table[d] + Fill(dsets[d], 1)], dsets, p, done + {d})
  {
    var tb := if IsUnaligned(d) then table else table[d := table[d] + Fill(dsets[d], 1)];
    assert Fill(dsets[d], 1) == [Missing(dsets[d])];
    forall x | x in dsets ensures OnPlan(tb, dsets, p, done + {d}, x) {
      assert OnPlan(table, dsets, p, done, x);
    }
  }

  lemma FillGrows(rows: seq<Value>, t: DType, n: nat)
    ensures (rows + Fill(t, n)) + [Missing(t)] == rows + Fill(t, n + 1)
  {
  }

  lemma PlanStarts(table: Table, dsets: map<Name, DType>, events: seq<Event>, e: Event)
    requires Faithful(table, dsets, events)
    ensures Midway(table, dsets, PlanOf(events, e), {})
  {
    NamesAppend(events, e);
  }

  lemma PlanIsRight(events: seq<Event>, e: Event)
    ensures PlansItems(PlanOf(events, e), e, Names(events), |events|)
    ensures PlansGaps(PlanOf(events, e), Names(events) - e.Keys)
  {
    NamesAppend(events, e);
    forall d | d in e && d !in Names(events)
      ensures Column(events, d, TypeOf(e[d])) == NewRows(d, TypeOf(e[d]), |events|)
    {
      AbsentColumn(events, d, TypeOf(e[d]));
    }
  }

  lemma PlanEnds(table: Table, dsets: map<Name, DType>, events: seq<Event>, e: Event)
    requires Midway(table, dsets, PlanOf(events, e), dsets.Keys) && dsets.Keys == Names(events) + e.Keys
    ensures Faithful(table, dsets, events + [e])
  {
    NamesOne(events, e);
    forall d | d in Names(events + [e]) ensures Promises(PlanOf(events, e), events + [e], d) {
      PlanEndsAt(events, e, d);
    }
    PlanKept(table, dsets, PlanOf(events, e), events + [e]);
  }

  /** The rows planned for a dataset are its column. */
  ghost predicate Promises(p: Plan, events: seq<Event>, d: Name) {
    && d in Names(events) && Covers(p, {d})
    && p.types[d] == FirstType(events, d) && p.base[d] + p.cell[d] == Column(events, d, p.types[d])
  }

  lemma PlanKept(table: Table, dsets: map<Name, DType>, p: Plan, events: seq<Event>)
    requires Midway(table, dsets, p, dsets.Keys) && dsets.Keys == Names(events)
    requires forall d :: d in Names(events) ==> Promises(p, events, d)
    ensures Faithful(table, dsets, events)
  {
    forall d | d in dsets
      ensures dsets[d] == FirstType(events, d) && table[d] == Column(events, d, dsets[d])
    {
      assert OnPlan(table, dsets, p, dsets.Keys, d) && Promises(p, events, d);
    }
  }

  lemma NamesOne(events: seq<Event>, e: Event)
    ensures Names(events + [e]) == Names(events) + e.Keys
  {
    NamesAppend(events, e);
  }

  lemma PlanEndsAt(events: seq<Event>, e: Event, d: Name)
    requires d in Names(events + [e])
    ensures Promises(PlanOf(events, e), events + [e], d)
  {
    NamesAppend(events, e);
  }

  lemma OneLess(known: set<Name>, done: set<Name>, todo: set<Name>, d: Name)
    requires d in todo && done !! todo
    ensures (done + {d}) + (todo - {d}) == done + todo && (done + {d}) !! (todo - {d})
    ensures (known - done) - {d} == known - (done + {d})
  {
  }

  class Server {
    const cacheSize: nat
    var dsets: map<Name, DType>
    var cache: map<Name, CacheArray>
    var file: map<Name, seq<Value>>
    var numEventsSeen: nat
    ghost var seen: seq<Event>
    ghost var owner: map<object, Name>
    ghost var Repr: set<object>
    ghost var table: Table   // file rows followed by cached rows, for every dataset

    /** Open caches are separate objects: each, like its array, belongs to one dataset. */
    ghost predicate Separate()
      reads this
    {
      forall d {:trigger cache[d]} :: d in cache ==>
        && cache[d] in Repr && cache[d] in owner && owner[cache[d]] == d
        && cache[d].data in Repr && cache[d].data in owner && owner[cache[d].data] == d
    }

    /** The table is what is in the file followed by what is cached. */
    ghost predicate InStep()
      reads this, Repr, cache.Values
    {
      && this in Repr && numEventsSeen == |seen|
      && file.Keys == dsets.Keys == table.Keys && cache.Keys <= dsets.Keys
      && Separate()
      && (forall d {:trigger cache[d]} :: d in cache ==>
            cache[d].Holds(cacheSize, dsets[d], file[d], table[d]))
      && (forall d {:trigger table[d]} :: d in dsets && d !in cache ==> table[d] == file[d])
    }

    /** Between two appends no cache is full. */
    ghost predicate Valid()
      reads this, Repr, cache.Values
    {
      && cacheSize > 0 && InStep()
      && forall d {:trigger cache[d]} :: d in cache ==> cache[d].nEvents < cacheSize
    }

    constructor (cacheSize: nat)
      requires cacheSize > 0
      ensures Valid() && Faithful(table, dsets, seen) && seen == [] && table == map[] && fresh(Repr)
      ensures this.cacheSize == cacheSize
    {
      this.cacheSize := cacheSize;
      dsets, cache, file, table := map[], map[], map[], map[];
      numEventsSeen, seen := 0, [];
      owner, Repr := map[], {this};
    }

    /** Every cache but d's has room. */
    ghost predicate RoomBut(d: Name)
      reads this, cache.Values
    {
      forall x {:trigger cache[x]} :: x in cache && x != d ==> cache[x].nEvents < cacheSize
    }

    method AdoptCache(d: Name, c: CacheArray)
      requires Valid() && d in dsets && d !in cache
      requires c !in Repr && c.data !in Repr && c !in owner && c.data !in owner
      requires c.Valid() && c.nEvents == 0 && c.contents == [] && c.cacheSize == cacheSize && c.dtype == dsets[d]
      modifies this`cache, this`owner, this`Repr
      ensures Valid() && Repr == old(Repr) + {c, c.data} && cache == old(cache)[d := c]
    {
      OwnCache(d, c);
      AddCache(d, c);
    }

    ghost method OwnCache(d: Name, c: CacheArray)
      requires Valid() && c !in owner && c.data !in owner
      modifies this`owner, this`Repr
      ensures Valid() && Repr == old(Repr) + {c, c.data}
      ensures c in owner && owner[c] == d && c.data in owner && owner[c.data] == d
    {
      Repr := Repr + {c, c.data};
      owner := owner[c := d][c.data := d];
    }

    method AddCache(d: Name, c: CacheArray)
      requires Valid() && d in dsets && d !in cache && c in Repr && c.data in Repr
      requires c in owner && owner[c] == d && c.data in owner && owner[c.data] == d
      requires c.Valid() && c.nEvents == 0 && c.contents == [] && c.cacheSize == cacheSize && c.dtype == dsets[d]
      modifies this`cache
      ensures Valid() && cache == old(cache)[d := c]
    {
      assert c.Holds(cacheSize, dsets[d], file[d], table[d]);
      cache := cache[d := c];
    }

    /** In step but for d, whose cached rows and table entry may be out of step. */
    ghost predicate InStepBut(d: Name)
      reads this, Repr, cache.Values
    {
      && this in Repr && numEventsSeen == |seen|
      && file.Keys == dsets.Keys == table.Keys && cache.Keys <= dsets.Keys
      && Separate()
      && (forall x {:trigger cache[x]} :: x in cache && x != d ==>
            cache[x].Holds(cacheSize, dsets[x], file[x], table[x]))
      && (forall x {:trigger table[x]} :: x in dsets && x !in cache ==> table[x] == file[x])
    }

    method PushRow(d: Name, c: CacheArray, v: Value)
      requires InStep() && RoomBut(d) && d in cache && cache[d] == c && c.nEvents < cacheSize
      modifies c`nEvents, c`contents, c.data
      ensures InStepBut(d) && RoomBut(d)
      ensures c.Holds(cacheSize, dsets[d], file[d], table[d] + [Cast(dsets[d], v)])
    {
      assert (file[d] + c.contents) + [Cast(dsets[d], v)] == file[d] + (c.contents + [Cast(dsets[d], v)]);
      c.Append(v);
    }

    method OpenCache(d: Name)
      requires Valid() && d in dsets && d !in cache
      modifies this`cache, this`owner, this`Repr
      ensures Valid() && fresh(Repr - old(Repr)) && old(Repr) <= Repr && d in cache
    {
      var c := new CacheArray(dsets[d], cacheSize);
      AdoptCache(d, c);
    }

    method StoreRow(d: Name, c: CacheArray, v: Value)
      requires Valid() && d in cache && cache[d] == c
      modifies this`table, c`nEvents, c`contents, c.data
      ensures InStep() && RoomBut(d)
      ensures table == old(table)[d := old(table[d]) + [Cast(dsets[d], v)]]
    {
      PushRow(d, c, v);
      NoteRow(d, Cast(dsets[d], v));
    }

    ghost method NoteRow(d: Name, v: Value)
      requires InStepBut(d) && d in cache
      requires cache[d].Holds(cacheSize, dsets[d], file[d], table[d] + [v])
      modifies this`table
      ensures InStep() && table == old(table)[d := old(table[d]) + [v]]
    {
      table := table[d := table[d] + [v]];
    }

    method SaveRows(d: Name, c: CacheArray)
      requires InStep() && d in cache && cache[d] == c
      modifies this`file
      ensures InStepBut(d) && file == old(file)[d := old(file[d]) + c.contents]
    {
      assert c.data[..c.nEvents] == c.contents;
      file := file[d := file[d] + c.data[..c.nEvents]];
    }

    method ResetCache(d: Name, c: CacheArray)
      requires InStepBut(d) && d in cache && cache[d] == c
      requires c.Valid() && c.cacheSize == cacheSize && c.dtype == dsets[d] && table[d] == file[d]
      modifies c`nEvents, c`contents
      ensures InStep() && c.nEvents == 0
      ensures forall x {:trigger cache[x]} :: x in cache && x != d ==> cache[x].nEvents == old(cache[x].nEvents)
    {
      c.Reset();
    }

    method WriteToFile(d: Name, c: CacheArray)
      requires InStep() && d in cache && cache[d] == c
      modifies this`file, c`nEvents, c`contents
      ensures InStep() && c.nEvents == 0
      ensures forall x {:trigger cache[x]} :: x in cache && x != d ==> cache[x].nEvents == old(cache[x].nEvents)
    {
      SaveRows(d, c);
      ResetCache(d, c);
    }

    /** One datum into an open cache, which goes to the file as soon as it is full. */
    method AppendRow(d: Name, c: CacheArray, v: Value)
      requires Valid() && d in cache && cache[d] == c
      modifies this`file, this`table, c`nEvents, c`contents, c.data
      ensures Valid()
      ensures table == old(table)[d := old(table[d]) + [Cast(dsets[d], v)]]
    {
      StoreRow(d, c, v);
      WriteIfFull(d, c);
    }

    method WriteIfFull(d: Name, c: CacheArray)
      requires cacheSize > 0 && InStep() && RoomBut(d) && d in cache && cache[d] == c
      modifies this`file, c`nEvents, c`contents
      ensures Valid()
    {
      if c.nEvents == cacheSize {
        WriteToFile(d, c);
      }
    }

    method AppendToCache(d: Name, v: Value)
      requires Valid() && d in dsets
      modifies Repr
      ensures Valid() && fresh(Repr - old(Repr))
      ensures dsets == old(dsets) && seen == old(seen)
      ensures table == old(table)[d := old(table[d]) + [Cast(dsets[d], v)]]
    {
      EnsureOpen(d);
      AppendOpen(d, v);
    }

    method AppendOpen(d: Name, v: Value)
      requires Valid() && d in cache
      modifies Repr
      ensures Valid() && Repr == old(Repr) && dsets == old(dsets) && seen == old(seen)
      ensures table == old(table)[d := old(table[d]) + [Cast(dsets[d], v)]]
    {
      AppendRow(d, cache[d], v);
    }

    method EnsureOpen(d: Name)
      requires Valid() && d in dsets
      modifies this`cache, this`owner, this`Repr
      ensures Valid() && fresh(Repr - old(Repr)) && old(Repr) <= Repr && d in cache
    {
      if d !in cache {
        OpenCache(d);
      }
    }

    method Backfill(d: Name, numToBackfill: nat)
      requires Valid() && d in dsets
      modifies Repr
      ensures Valid() && fresh(Repr - old(Repr))
      ensures dsets == old(dsets) && seen == old(seen)
      ensures table == old(table)[d := old(table[d]) + Fill(dsets[d], numToBackfill)]
    {
      ghost var before, rows := table, table[d];
      assert rows + Fill(dsets[d], 0) == rows;
      for i := 0 to numToBackfill
        invariant Valid() && fresh(Repr - old(Repr))
        invariant dsets == old(dsets) && seen == old(seen)
        invariant table == before[d := rows + Fill(dsets[d], i)]
      {
        AppendToCache(d, Missing(dsets[d]));
        FillGrows(rows, dsets[d], i);
      }
    }

    method CreateDataset(d: Name, t: DType)
      requires Valid() && d !in dsets
      modifies this`dsets, this`file, this`table
      ensures Valid() && dsets == old(dsets)[d := t] && table == old(table)[d := []]
    {
      dsets := dsets[d := t];
      file := file[d := []];
      table := table[d := []];
    }

    /** A dataset first seen now starts with a fill value for every event already seen. */
    method NewDset(d: Name, v: Value)
      requires Valid() && d !in dsets
      modifies Repr
      ensures Valid() && fresh(Repr - old(Repr))
      ensures dsets == old(dsets)[d := TypeOf(v)] && seen == old(seen)
      ensures table == old(table)[d := NewRows(d, TypeOf(v), |seen|)]
      ensures forall k: nat :: LastBegins(d.path, k) ==>
                table[d] == if "unaligned_" <= d.path[k..] then [] else Fill(TypeOf(v), |seen|)
    {
      forall k: nat | LastBegins(d.path, k) ensures IsUnaligned(d) <==> "unaligned_" <= d.path[k..] {
        UnalignedIff(d.path, k);
      }
      CreateDataset(d, TypeOf(v));
      FillPast(d);
      assert [] + Fill(TypeOf(v), |seen|) == Fill(TypeOf(v), |seen|);
    }

    method FillPast(d: Name)
      requires Valid() && d in dsets
      modifies Repr
      ensures Valid() && fresh(Repr - old(Repr))
      ensures dsets == old(dsets) && seen == old(seen)
      ensures table == if IsUnaligned(d) then old(table) else old(table)[d := old(table[d]) + Fill(dsets[d], |seen|)]
    {
      if !IsUnaligned(d) {
        Backfill(d, numEventsSeen);
      }
    }

    /** One item of an event's dictionary. */
    method HandleDatum(e: Event, d: Name, ghost p: Plan, ghost known: set<Name>, ghost done: set<Name>)
      requires Valid() && d in e && d !in done && dsets.Keys == known + done
      requires Midway(table, dsets, p, done) && PlansItems(p, e, known, |seen|)
      modifies Repr
      ensures Valid() && fresh(Repr - old(Repr)) && seen == old(seen)
      ensures Midway(table, dsets, p, done + {d}) && dsets.Keys == known + (done + {d})
    {
      MidwayDatum(table, dsets, p, e, known, |seen|, done, d);
      if d !in dsets {
        NewDset(d, e[d]);
      }
      AppendToCache(d, e[d]);
    }

    method HandleItems(e: Event, ghost p: Plan) returns (toBackfill: set<Name>)
      requires Valid() && Midway(table, dsets, p, {}) && PlansItems(p, e, dsets.Keys, |seen|)
      modifies Repr
      ensures Valid() && fresh(Repr - old(Repr)) && seen == old(seen)
      ensures dsets.Keys == old(dsets.Keys) + e.Keys && Midway(table, dsets, p, e.Keys)
      ensures toBackfill == old(dsets.Keys) - e.Keys
    {
      ghost var known, done := dsets.Keys, {};
      var todo := e.Keys;
      toBackfill := dsets.Keys;
      while todo != {}
        invariant Valid() && fresh(Repr - old(Repr)) && seen == old(seen)
        invariant done + todo == e.Keys && done !! todo
        invariant dsets.Keys == known + done && toBackfill == known - done
        invariant Midway(table, dsets, p, done)
        decreases todo
      {
        var d :| d in todo;
        HandleDatum(e, d, p, known, done);
        OneLess(known, done, todo, d);
        toBackfill := toBackfill - {d};
        todo, done := todo - {d}, done + {d};
      }
    }

    method BackfillOne(d: Name, ghost p: Plan, ghost done: set<Name>)
      requires Valid() && d in dsets && d !in done
      requires Midway(table, dsets, p, done) && PlansGaps(p, {d})
      modifies Repr
      ensures Valid() && fresh(Repr - old(Repr)) && dsets == old(dsets) && seen == old(seen)
      ensures Midway(table, dsets, p, done + {d})
    {
      MidwayGap(table, dsets, p, done, d);
      if !IsUnaligned(d) {
        Backfill(d, 1);
      }
    }

    method BackfillAll(names: set<Name>, ghost p: Plan, ghost before: set<Name>)
      requires Valid() && names <= dsets.Keys && names !! before && PlansGaps(p, names)
      requires Midway(table, dsets, p, before)
      modifies Repr
      ensures Valid() && fresh(Repr - old(Repr)) && dsets == old(dsets) && seen == old(seen)
      ensures Midway(table, dsets, p, before + names)
    {
      var done: set<Name> := {};
      assert before + done == before;
      while done != names
        invariant Valid() && fresh(Repr - old(Repr)) && dsets == old(dsets) && seen == old(seen) && done <= names
        invariant Midway(table, dsets, p, before + done)
        decreases names - done
      {
        assert names - done != {};
        var d :| d in names - done;
        BackfillOne(d, p, before + done);
        assert before + done + {d} == before + (done + {d});
        done := done + {d};
      }
    }

    method ProcessEvent(e: Event, ghost p: Plan)
      requires Valid() && Midway(table, dsets, p, {}) && PlansItems(p, e, dsets.Keys, |seen|)
      requires PlansGaps(p, dsets.Keys - e.Keys)
      modifies Repr
      ensures Valid() && fresh(Repr - old(Repr)) && seen == old(seen)
      ensures dsets.Keys == old(dsets.Keys) + e.Keys && Midway(table, dsets, p, dsets.Keys)
    {
      var toBackfill := HandleItems(e, p);
      BackfillAll(toBackfill, p, e.Keys);
      assert e.Keys + toBackfill == dsets.Keys;
    }

    method CountEvent(ghost e: Event)
      requires Valid()
      modifies this`numEventsSeen, this`seen
      ensures Valid() && seen == old(seen) + [e]
    {
      numEventsSeen := numEventsSeen + 1;
      seen := seen + [e];
    }

    /** One event: append what it has, backfill the aligned datasets it lacks. */
    method HandleEvent(e: Event)
      requires Valid() && Faithful(table, dsets, seen)
      modifies Repr
      ensures Valid() && Faithful(table, dsets, seen) && fresh(Repr - old(Repr))
      ensures seen == old(seen) + [e]
    {
      ghost var p := PlanOf(seen, e);
      PlanStarts(table, dsets, seen, e);
      PlanIsRight(seen, e);
      ProcessEvent(e, p);
      PlanEnds(table, dsets, seen, e);
      CountEvent(e);
    }

    method Handle(batch: seq<Event>)
      requires Valid() && Faithful(table, dsets, seen)
      modifies Repr
      ensures Valid() && fresh(Repr - old(Repr)) && Faithful(table, dsets, seen)
      ensures seen == old(seen) + batch
    {
      for i := 0 to |batch|
        invariant Valid() && fresh(Repr - old(Repr)) && Faithful(table, dsets, seen)
        invariant seen == old(seen) + batch[..i]
      {
        HandleEvent(batch[i]);
        assert batch[..i + 1] == batch[..i] + [batch[i]];
      }
    }

    method Receive(message: Client.Message) returns (finished: bool)
      requires Valid() && Faithful(table, dsets, seen)
      modifies Repr
      ensures Valid() && fresh(Repr - old(Repr)) && Faithful(table, dsets, seen)
      ensures finished == message.Finished?
      ensures seen == if message.Batch? then old(seen) + message.events else old(seen)
    {
      finished := message.Finished?;
      if message.Batch? {
        Handle(message.events);
      }
    }

    /** Read messages until every client is done; used counts those read. */
    method RecvLoop(messages: seq<Client.Message>, numClients: nat) returns (used: nat)
      requires Valid() && Faithful(table, dsets, seen)
      requires Client.Finishes(messages) >= numClients
      modifies Repr
      ensures Valid() && fresh(Repr - old(Repr)) && Faithful(table, dsets, seen)
      ensures used <= |messages| && seen == old(seen) + Client.Received(messages[..used])
      ensures Client.Finishes(messages[..used]) == numClients
    {
      used := 0;
      var numClientsDone := 0;
      ghost var before := seen;
      assert before + [] == before;
      while numClientsDone < numClients
        invariant Valid() && fresh(Repr - old(Repr)) && Faithful(table, dsets, seen)
        invariant used <= |messages| && seen == before + Client.Received(messages[..used])
        invariant numClientsDone == Client.Finishes(messages[..used]) <= numClients
        decreases |messages| - used
      {
        assert used < |messages| by { assert messages[..|messages|] == messages; }
        Client.NextMessage(messages, used, before);
        var finished := Receive(messages[used]);
        if finished {
          numClientsDone := numClientsDone + 1;
        }
        used := used + 1;
      }
    }

    /** Flush the caches: the file then is the table. */
    method Done()
      requires Valid() && Faithful(table, dsets, seen)
      modifies Repr
      ensures seen == old(seen) && dsets == old(dsets)
      ensures Faithful(file, dsets, seen)
    {
      FlushAll();
    }

    ghost predicate Flushed(todo: set<Name>)
      reads this, cache.Values
    {
      forall d {:trigger cache[d]} :: d in cache && d !in todo ==> cache[d].nEvents == 0
    }

    method FlushOne(d: Name, c: CacheArray, ghost todo: set<Name>)
      requires InStep() && d in cache && cache[d] == c && Flushed(todo)
      modifies this`file, c`nEvents, c`contents
      ensures InStep() && Flushed(todo - {d})
    {
      if c.nEvents > 0 {
        WriteToFile(d, c);
      }
    }

    method FlushNext(d: Name, ghost todo: set<Name>)
      requires InStep() && d in cache && Flushed(todo)
      modifies Repr
      ensures InStep() && Flushed(todo - {d}) && Repr == old(Repr) && cache == old(cache)
      ensures seen == old(seen) && dsets == old(dsets) && table == old(table)
    {
      FlushOne(d, cache[d], todo);
    }

    method FlushAll()
      requires InStep()
      modifies Repr
      ensures seen == old(seen) && dsets == old(dsets) && file == table == old(table)
    {
      var todo := cache.Keys;
      while todo != {}
        invariant InStep() && Flushed(todo) && Repr == old(Repr) && todo <= cache.Keys
        invariant seen == old(seen) && dsets == old(dsets) && table == old(table)
        decreases todo
      {
        var d :| d in todo;
        FlushNext(d, todo);
        todo := todo - {d};
      }
      AllWritten();
    }

    lemma AllWritten()
      requires InStep() && Flushed({})
      ensures file == table
    {
      forall d | d in dsets ensures file[d] == table[d] {
        if d in cache {
          assert cache[d].Valid();
          assert table[d] == file[d] + cache[d].contents;
        }
      }
    }
  }
}
