/** join_files of psana/psana/smalldata.py: the servers' files made into one virtual
    dataset for each name. */
module SmallDataJoin {
  import opened SmallDataTable

  datatype Dataset = Dataset(dtype: DType, rows: seq<Value>)

  /** What a visit of a file finds, by absolute name. */
  type File = map<Name, Dataset>

  function Rooted(d: Name): Name {
    Name("/" + d.path)
  }

  function Unrooted(d: Name): Name {
    if d.path == [] then d else Name(d.path[1..])
  }

  lemma UnrootedRooted(d: Name)
    ensures Unrooted(Rooted(d)) == d
  {
  }

  /** What visiting a server's file finds. */
  function Visit(dsets: map<Name, DType>, rows: map<Name, seq<Value>>): File {
    var names := set d | d in dsets :: Rooted(d);
    map p | p in names && Unrooted(p) in dsets && Unrooted(p) in rows :: Dataset(dsets[Unrooted(p)], rows[Unrooted(p)])
  }

  lemma VisitFinds(dsets: map<Name, DType>, rows: map<Name, seq<Value>>, d: Name)
    requires dsets.Keys == rows.Keys
    ensures Rooted(d) in Visit(dsets, rows) <==> d in dsets
    ensures d in dsets ==> Visit(dsets, rows)[Rooted(d)] == Dataset(dsets[d], rows[d])
  {
    UnrootedRooted(d);
  }

  lemma {:induction false} RootedComponent(path: string)
    ensures LastComponent("/" + path) == LastComponent(path)
  {
    if path != [] {
      RootedComponent(path[..|path| - 1]);
      assert ("/" + path)[..|path|] == "/" + path[..|path| - 1];
    }
  }

  lemma RootedAlignment(d: Name)
    ensures IsUnaligned(Rooted(d)) == IsUnaligned(d)
  {
    RootedComponent(d.path);
  }

  /** Rows a file without the dataset stands for. */
  function Gap(f: File, d: Name): nat {
    if !IsUnaligned(d) && Rooted(TIMESTAMP) in f then |f[Rooted(TIMESTAMP)].rows| else 0
  }

  /** Rows of one type read as another. */
  function CastAll(t: DType, rows: seq<Value>): (r: seq<Value>)
    ensures |r| == |rows| && forall i :: 0 <= i < |r| ==> r[i] == Cast(t, rows[i])
  {
    seq(|rows|, i requires 0 <= i < |rows| => Cast(t, rows[i]))
  }

  /** What a file adds: its rows, converted to the joined type as they are read. */
  function Piece(f: File, d: Name, t: DType): seq<Value> {
    if d in f then CastAll(t, f[d].rows) else Fill(t, Gap(f, d))
  }

  function Joined(files: seq<File>, d: Name, t: DType): seq<Value> {
    if files == [] then [] else Joined(files[..|files| - 1], d, t) + Piece(files[|files| - 1], d, t)
  }

  function LastType(files: seq<File>, d: Name, default: DType): DType {
    if files == [] then default
    else if d in files[|files| - 1] then files[|files| - 1][d].dtype
    else LastType(files[..|files| - 1], d, default)
  }

  lemma {:induction false} JoinedPrefix(files: seq<File>, i: nat, d: Name, t: DType)
    requires i < |files|
    ensures Joined(files[..i + 1], d, t) == Joined(files[..i], d, t) + Piece(files[i], d, t)
    ensures |Joined(files[..i + 1], d, t)| <= |Joined(files, d, t)|
    decreases |files| - i
  {
    assert files[..i + 1][..i] == files[..i];
    if i + 1 < |files| {
      JoinedPrefix(files, i + 1, d, t);
    } else {
      assert files[..i + 1] == files;
    }
  }

  lemma {:induction false} JoinedLength(files: seq<File>, d: Name, t: DType, u: DType)
    ensures |Joined(files, d, t)| == |Joined(files, d, u)|
  {
    if files != [] {
      JoinedLength(files[..|files| - 1], d, t, u);
    }
  }

  /** Pass one: how many rows, and of what type. */
  method Measure(files: seq<File>, d: Name) returns (totalEvents: nat, dtype: DType)
    ensures totalEvents == |Joined(files, d, dtype)|
    ensures dtype == LastType(files, d, Int)
  {
    totalEvents, dtype := 0, Int;
    for i := 0 to |files|
      invariant totalEvents == |Joined(files[..i], d, dtype)|
      invariant dtype == LastType(files[..i], d, Int)
    {
      assert files[..i + 1][..i] == files[..i];
      var was := dtype;
      if d in files[i] {
        dtype := files[i][d].dtype;
        totalEvents := totalEvents + |files[i][d].rows|;
      } else if !IsUnaligned(d) {
        if Rooted(TIMESTAMP) in files[i] {
          totalEvents := totalEvents + |files[i][Rooted(TIMESTAMP)].rows|;
        }
      }
      JoinedLength(files[..i], d, was, dtype);
    }
    assert files[..|files|] == files;
  }

  /** One file's slice, which is inside the layout, in pass two. */
  method PlaceFile(layout: seq<Value>, f: File, d: Name, dtype: DType, index: nat)
                   returns (layout': seq<Value>, index': nat)
    requires index + |Piece(f, d, dtype)| <= |layout|
    requires layout[index..] == Fill(dtype, |layout| - index)
    ensures |layout'| == |layout| && index' == index + |Piece(f, d, dtype)|
    ensures layout'[..index'] == layout[..index] + Piece(f, d, dtype)
    ensures layout'[index'..] == Fill(dtype, |layout| - index')
  {
    layout', index' := layout, index;
    if d in f {
      var rows := CastAll(dtype, f[d].rows);
      index' := index + |rows|;
      layout' := layout[..index] + rows + layout[index'..];
      assert layout'[index'..] == layout[index..][|rows|..];
    } else if !IsUnaligned(d) {
      if Rooted(TIMESTAMP) in f {
        index' := index + |f[Rooted(TIMESTAMP)].rows|;
        assert layout[..index'] == layout[..index] + layout[index..][..index' - index];
        assert layout[index'..] == layout[index..][index' - index..];
      }
    }
    assert layout'[..index'] == layout[..index] + Piece(f, d, dtype);
  }

  /** Pass two: place each file's rows; what is not placed reads as the fill value.
      No file's slice runs past the length measured in pass one. */
  method Place(files: seq<File>, d: Name, totalEvents: nat, dtype: DType) returns (layout: seq<Value>)
    requires totalEvents == |Joined(files, d, dtype)|
    ensures layout == Joined(files, d, dtype)
  {
    layout := Fill(dtype, totalEvents);
    var indexOfLastFill := 0;
    for i := 0 to |files|
      invariant indexOfLastFill == |Joined(files[..i], d, dtype)| <= totalEvents == |layout|
      invariant layout[..indexOfLastFill] == Joined(files[..i], d, dtype)
      invariant layout[indexOfLastFill..] == Fill(dtype, totalEvents - indexOfLastFill)
    {
      JoinedPrefix(files, i, d, dtype);
      layout, indexOfLastFill := PlaceFile(layout, files[i], d, dtype, indexOfLastFill);
    }
    assert files[..|files|] == files;
    assert layout[..indexOfLastFill] == layout;
  }

  /** The joined dataset, with its type. */
  function JoinedDataset(files: seq<File>, p: Name): Dataset {
    Dataset(LastType(files, p, Int), Joined(files, p, LastType(files, p, Int)))
  }

  function AllNames(files: seq<File>): set<Name> {
    if files == [] then {} else AllNames(files[..|files| - 1]) + files[|files| - 1].Keys
  }

  /** Both passes for one dataset. */
  method JoinDataset(files: seq<File>, d: Name) returns (joined: Dataset)
    ensures joined == JoinedDataset(files, d)
  {
    var totalEvents, dtype := Measure(files, d);
    var layout := Place(files, d, totalEvents, dtype);
    return Dataset(dtype, layout);
  }

  /** The joined file. */
  method JoinFiles(files: seq<File>) returns (joined: File)
    ensures joined.Keys == AllNames(files)
    ensures forall d :: d in joined ==> joined[d] == JoinedDataset(files, d)
  {
    var todo := {};
    for i := 0 to |files|
      invariant todo == AllNames(files[..i])
    {
      assert files[..i + 1][..i] == files[..i];
      todo := todo + files[i].Keys;
    }
    assert files[..|files|] == files;
    joined := map[];
    while todo != {}
      invariant joined.Keys + todo == AllNames(files) && joined.Keys !! todo
      invariant forall d :: d in joined ==> joined[d] == JoinedDataset(files, d)
      decreases |todo|
    {
      var d :| d in todo;
      var dataset := JoinDataset(files, d);
      joined := joined[d := dataset];
      todo := todo - {d};
    }
  }

  /** A server's file is the ideal table of the events it received. */
  ghost predicate WrittenFor(f: File, events: seq<Event>) {
    && (forall d :: Rooted(d) in f <==> d in Names(events))
    && (forall d :: d in Names(events) ==>
          f[Rooted(d)] == Dataset(FirstType(events, d), Column(events, d, FirstType(events, d))))
    && (forall i :: 0 <= i < |events| ==> TIMESTAMP in events[i])
  }

  ghost predicate WrittenAt(f: File, events: seq<Event>, d: Name) {
    && (Rooted(d) in f <==> d in Names(events))
    && (d in Names(events) ==> f[Rooted(d)] == Dataset(FirstType(events, d), Column(events, d, FirstType(events, d))))
  }

  /** The server's promise is what the join relies on. */
  lemma FaithfulIsWritten(dsets: map<Name, DType>, rows: map<Name, seq<Value>>, events: seq<Event>)
    requires Faithful(rows, dsets, events) && forall i :: 0 <= i < |events| ==> TIMESTAMP in events[i]
    ensures WrittenFor(Visit(dsets, rows), events)
  {
    var f := Visit(dsets, rows);
    forall d ensures WrittenAt(f, events, d) {
      VisitFinds(dsets, rows, d);
    }
    AllWrittenAt(f, events);
  }

  lemma AllWrittenAt(f: File, events: seq<Event>)
    requires forall d :: WrittenAt(f, events, d)
    requires forall i :: 0 <= i < |events| ==> TIMESTAMP in events[i]
    ensures WrittenFor(f, events)
  {
    forall d
      ensures Rooted(d) in f <==> d in Names(events)
      ensures d in Names(events) ==>
                f[Rooted(d)] == Dataset(FirstType(events, d), Column(events, d, FirstType(events, d)))
    {
      assert WrittenAt(f, events, d);
    }
  }

  ghost predicate AllWritten(files: seq<File>, events: seq<seq<Event>>) {
    |files| == |events| && forall i :: 0 <= i < |files| ==> WrittenFor(files[i], events[i])
  }

  lemma {:induction false} InSomeEvent(events: seq<Event>, d: Name)
    requires forall i :: 0 <= i < |events| ==> d in events[i]
    requires events != []
    ensures d in Names(events)
  {
  }

  lemma {:induction false} FirstTypeConcat(a: seq<Event>, b: seq<Event>, d: Name)
    requires d in Names(a) || d in Names(b)
    ensures d in Names(a + b)
    ensures FirstType(a + b, d) == if d in Names(a) then FirstType(a, d) else FirstType(b, d)
  {
    NamesConcat(a, b);
    if b == [] {
      assert a + b == a;
    } else {
      var b' := b[..|b| - 1];
      assert (a + b)[..|a + b| - 1] == a + b';
      NamesConcat(a, b');
      if d in Names(a) || d in Names(b') {
        FirstTypeConcat(a, b', d);
      }
    }
  }

  lemma TimestampIsAligned()
    ensures !IsUnaligned(TIMESTAMP)
  {
    PlainPath(TIMESTAMP.path);
    assert "unaligned_"[0] != TIMESTAMP.path[0];
  }

  /** A datum first stored as u and then read as t is as if stored as t: unless a float
      that is no whole number, or NaN, went through an integer. */
  predicate Survives(u: DType, t: DType, v: Value) {
    u == t || t.Int? || v.IntVal? || (v.FloatVal? && v.x == Truncate(v.x) as real)
  }

  lemma SurvivesIff(u: DType, t: DType, v: Value)
    ensures Survives(u, t, v) <==> Cast(t, Cast(u, v)) == Cast(t, v)
  {
    if u.Float? && t.Int? && v.IntVal? {
      assert Truncate(v.n as real) == v.n;
    }
  }

  /** An event's part of a column of type u reads right as t. A fill value does not. */
  predicate EventReadsBack(e: Event, d: Name, u: DType, t: DType) {
    if d in e then Survives(u, t, e[d]) else IsUnaligned(d) || u == t
  }

  predicate ReadsBack(events: seq<Event>, d: Name, t: DType) {
    d in Names(events) ==> forall k :: 0 <= k < |events| ==> EventReadsBack(events[k], d, FirstType(events, d), t)
  }

  lemma CellCast(e: Event, d: Name, u: DType, t: DType)
    ensures EventReadsBack(e, d, u, t) <==> CastAll(t, Cell(e, d, u)) == Cell(e, d, t)
  {
    if d in e {
      SurvivesIff(u, t, e[d]);
      assert CastAll(t, [Cast(u, e[d])])[0] == Cast(t, Cast(u, e[d]));
      assert CastAll(t, [Cast(u, e[d])]) == [Cast(t, Cast(u, e[d]))];
    } else if !IsUnaligned(d) {
      assert CastAll(t, [Missing(u)])[0] == Cast(t, Missing(u));
    }
  }

  lemma CastConcat(t: DType, a: seq<Value>, b: seq<Value>)
    ensures CastAll(t, a + b) == CastAll(t, a) + CastAll(t, b)
  {
  }

  /** Sequences cut at the same place are equal when both parts are. */
  lemma EqualParts<T>(a: seq<T>, b: seq<T>, c: seq<T>, d: seq<T>)
    requires |a| == |c| && |b| == |d|
    ensures a + b == c + d <==> a == c && b == d
  {
    if a + b == c + d {
      assert a == (a + b)[..|a|] && b == (a + b)[|a|..];
      assert c == (c + d)[..|a|] && d == (c + d)[|a|..];
    }
  }

  lemma {:induction false} ColumnLength(events: seq<Event>, d: Name, t: DType, u: DType)
    ensures |Column(events, d, t)| == |Column(events, d, u)|
  {
    if events != [] {
      ColumnLength(events[..|events| - 1], d, t, u);
    }
  }

  lemma {:induction false} ColumnCast(events: seq<Event>, d: Name, u: DType, t: DType)
    ensures CastAll(t, Column(events, d, u)) == Column(events, d, t)
            <==> forall k :: 0 <= k < |events| ==> EventReadsBack(events[k], d, u, t)
  {
    if events != [] {
      var n := |events| - 1;
      var rest, e := events[..n], events[n];
      ColumnCast(rest, d, u, t);
      CellCast(e, d, u, t);
      CastConcat(t, Column(rest, d, u), Cell(e, d, u));
      ColumnLength(rest, d, u, t);
      EqualParts(CastAll(t, Column(rest, d, u)), CastAll(t, Cell(e, d, u)), Column(rest, d, t), Cell(e, d, t));
      assert (forall k :: 0 <= k < |events| ==> EventReadsBack(events[k], d, u, t))
             <==> (forall k :: 0 <= k < n ==> EventReadsBack(rest[k], d, u, t)) && EventReadsBack(e, d, u, t);
    }
  }

  /** A file stands for its events' part of the column exactly when they read back. */
  lemma PieceIsColumn(f: File, events: seq<Event>, d: Name, t: DType)
    requires WrittenFor(f, events)
    ensures |Piece(f, Rooted(d), t)| == |Column(events, d, t)|
    ensures Piece(f, Rooted(d), t) == Column(events, d, t) <==> ReadsBack(events, d, t)
  {
    RootedAlignment(d);
    if d !in Names(events) {
      AbsentColumn(events, d, t);
      if !IsUnaligned(d) && events != [] {
        InSomeEvent(events, TIMESTAMP);
        TimestampIsAligned();
        AlignedLength(events, TIMESTAMP, FirstType(events, TIMESTAMP));
      }
    } else {
      var u := FirstType(events, d);
      ColumnCast(events, d, u, t);
      ColumnLength(events, d, u, t);
    }
  }

  predicate AllReadBack(events: seq<seq<Event>>, d: Name, t: DType) {
    forall i :: 0 <= i < |events| ==> ReadsBack(events[i], d, t)
  }

  lemma AllReadBackSplit(events: seq<seq<Event>>, d: Name, t: DType)
    requires events != []
    ensures AllReadBack(events, d, t) <==>
            AllReadBack(events[..|events| - 1], d, t) && ReadsBack(events[|events| - 1], d, t)
  {
    var n := |events| - 1;
    if AllReadBack(events[..n], d, t) && ReadsBack(events[n], d, t) {
      forall i | 0 <= i < |events| ensures ReadsBack(events[i], d, t) {
        assert i < n ==> events[..n][i] == events[i];
      }
    }
  }

  lemma {:induction false} JoinedIsColumn(files: seq<File>, events: seq<seq<Event>>, d: Name, t: DType)
    requires AllWritten(files, events)
    ensures |Joined(files, Rooted(d), t)| == |Column(Flatten(events), d, t)|
    ensures Joined(files, Rooted(d), t) == Column(Flatten(events), d, t) <==> AllReadBack(events, d, t)
  {
    if files != [] {
      var n := |files| - 1;
      var f, fs, e, es := files[n], files[..n], events[n], events[..n];
      JoinedIsColumn(fs, es, d, t);
      PieceIsColumn(f, e, d, t);
      ColumnConcat(Flatten(es), e, d, t);
      EqualParts(Joined(fs, Rooted(d), t), Piece(f, Rooted(d), t), Column(Flatten(es), d, t), Column(e, d, t));
      AllReadBackSplit(events, d, t);
    }
  }

  /** The type given by the last server that saw the dataset. */
  function LastGiven(events: seq<seq<Event>>, d: Name, default: DType): DType {
    if events == [] then default
    else if d in Names(events[|events| - 1]) then FirstType(events[|events| - 1], d)
    else LastGiven(events[..|events| - 1], d, default)
  }

  lemma {:induction false} LastTypeIs(files: seq<File>, events: seq<seq<Event>>, d: Name)
    requires AllWritten(files, events)
    ensures LastType(files, Rooted(d), Int) == LastGiven(events, d, Int)
  {
    if files != [] {
      var n := |files| - 1;
      LastTypeIs(files[..n], events[..n], d);
      assert WrittenFor(files[n], events[n]);
    }
  }

  predicate InSome(files: seq<File>, p: Name) {
    exists i :: 0 <= i < |files| && p in files[i]
  }

  lemma InSomeSplit(files: seq<File>, p: Name)
    requires files != []
    ensures InSome(files, p) <==> InSome(files[..|files| - 1], p) || p in files[|files| - 1]
  {
    var n := |files| - 1;
    if i :| 0 <= i < n && p in files[..n][i] {
      assert p in files[i];
    }
    if i :| 0 <= i < n && p in files[i] {
      assert p in files[..n][i];
    }
  }

  lemma {:induction false} NameIsSomewhere(files: seq<File>, events: seq<seq<Event>>, d: Name)
    requires AllWritten(files, events)
    ensures d in Names(Flatten(events)) <==> InSome(files, Rooted(d))
  {
    if files != [] {
      var n := |files| - 1;
      NameIsSomewhere(files[..n], events[..n], d);
      NamesConcat(Flatten(events[..n]), events[n]);
      InSomeSplit(files, Rooted(d));
    }
  }

  /** The last server to see d gave it the type of the first, and no other server whose
      type was different holds a fill value or a datum that its type does not keep. */
  predicate Joinable(events: seq<seq<Event>>, d: Name)
    requires d in Names(Flatten(events))
  {
    var t := FirstType(Flatten(events), d);
    LastGiven(events, d, Int) == t && AllReadBack(events, d, t)
  }

  /** The joined dataset is the ideal column over all servers' events, with that
      column's type, exactly when the servers' types and data agree so far. */
  lemma JoinIsFaithful(files: seq<File>, events: seq<seq<Event>>, d: Name)
    requires AllWritten(files, events) && d in Names(Flatten(events))
    ensures var t := FirstType(Flatten(events), d);
            JoinedDataset(files, Rooted(d)) == Dataset(t, Column(Flatten(events), d, t)) <==> Joinable(events, d)
  {
    var t := FirstType(Flatten(events), d);
    JoinedIsColumn(files, events, d, t);
    LastTypeIs(files, events, d);
  }

  predicate OneType(events: seq<seq<Event>>, d: Name, t: DType) {
    forall i :: 0 <= i < |events| && d in Names(events[i]) ==> FirstType(events[i], d) == t
  }

  /** Servers that all gave a dataset one type are joinable, whatever the events. */
  lemma {:induction false} OneTypeJoins(events: seq<seq<Event>>, d: Name, t: DType)
    requires OneType(events, d, t) && d in Names(Flatten(events))
    ensures FirstType(Flatten(events), d) == t && Joinable(events, d)
  {
    var n := |events| - 1;
    NamesConcat(Flatten(events[..n]), events[n]);
    FirstTypeConcat(Flatten(events[..n]), events[n], d);
    if d in Names(Flatten(events[..n])) {
      OneTypeJoins(events[..n], d, t);
    }
  }

  /** The joined dataset has the type and the rows of the ideal column; if it is aligned,
      row i is its datum in event i or the fill value. */
  ghost predicate IsColumnOf(joined: Dataset, events: seq<Event>, d: Name)
    requires d in Names(events)
  {
    var t := FirstType(events, d);
    && joined == Dataset(t, Column(events, d, t))
    && (!IsUnaligned(d) ==>
          && |joined.rows| == |events|
          && forall i :: 0 <= i < |events| ==>
               joined.rows[i] == if d in events[i] then Cast(t, events[i][d]) else Missing(t))
  }

  lemma JoinedRows(files: seq<File>, events: seq<seq<Event>>, d: Name)
    requires AllWritten(files, events) && d in Names(Flatten(events))
    ensures IsColumnOf(JoinedDataset(files, Rooted(d)), Flatten(events), d) <==> Joinable(events, d)
  {
    var all, t := Flatten(events), FirstType(Flatten(events), d);
    JoinIsFaithful(files, events, d);
    if !IsUnaligned(d) {
      AlignedLength(all, d, t);
      forall i | 0 <= i < |all|
        ensures Column(all, d, t)[i] == if d in all[i] then Cast(t, all[i][d]) else Missing(t)
      {
        AlignedRow(all, d, t, i);
      }
    }
  }

  lemma {:induction false} AllNamesIsSome(files: seq<File>, p: Name)
    ensures p in AllNames(files) <==> InSome(files, p)
  {
    if files != [] {
      AllNamesIsSome(files[..|files| - 1], p);
      InSomeSplit(files, p);
    }
  }

  /** One server's first datum was an integer, the other's a float: they do not join. */
  lemma TypesMayDiffer(a: seq<Event>, b: seq<Event>, d: Name)
    requires d in Names(a) && d in Names(b) && FirstType(a, d) != FirstType(b, d)
    ensures d in Names(Flatten([a, b])) && !Joinable([a, b], d)
  {
    assert [a, b][..1] == [a] && [a][..0] == [];
    assert Flatten([a]) == [] + a == a;
    assert Flatten([a, b]) == a + b;
    FirstTypeConcat(a, b, d);
    assert LastGiven([a, b], d, Int) == FirstType(b, d);
  }

  /** Integers on the first and last server, floats on the one between: they join when
      that one has no gap, although its type differs; with a gap they do not. */
  lemma BetweenMayDiffer(a: Event, x: Event, c: Event, d: Name)
    requires d in a && d in x && d in c && a[d].IntVal? && !x[d].IntVal? && c[d].IntVal? && !IsUnaligned(d)
    ensures d in Names(Flatten([[a], [x], [c]])) && Joinable([[a], [x], [c]], d)
    ensures d in Names(Flatten([[a], [x, map[]], [c]])) && !Joinable([[a], [x, map[]], [c]], d)
  {
    Between([a], [x], [c], d);
    Between([a], [x, map[]], [c], d);
    assert [x, map[]][..1] == [x] && [x][..0] == [];
    assert !EventReadsBack([x, map[]][1], d, Float, Int);
  }

  lemma Between(a: seq<Event>, b: seq<Event>, c: seq<Event>, d: Name)
    requires d in Names(a) && d in Names(c) && FirstType(a, d) == FirstType(c, d)
    ensures d in Names(Flatten([a, b, c]))
    ensures Joinable([a, b, c], d) <==> ReadsBack(b, d, FirstType(a, d))
  {
    var all := [a, b, c];
    assert all[..2] == [a, b] && [a, b][..1] == [a] && [a][..0] == [];
    assert Flatten([a]) == a;
    FirstTypeConcat(a, b, d);
    FirstTypeConcat(a + b, c, d);
    assert Flatten(all) == a + b + c;
    assert AllReadBack(all, d, FirstType(a, d)) <==>
           ReadsBack(all[0], d, FirstType(a, d)) && ReadsBack(all[1], d, FirstType(a, d)) &&
             ReadsBack(all[2], d, FirstType(a, d));
  }
}
