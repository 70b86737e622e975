/** The table that psana/psana/smalldata.py promises: row i is event i, column d
    is dataset d, and an aligned dataset has its fill value where an event lacks it. */
module SmallDataTable {

  /** A dataset's path inside the file. */
  datatype Name = Name(path: string)

  /** The element types a scalar dataset gets: i8 or f8. */
  datatype DType = Int | Float

  datatype Value = IntVal(n: int) | FloatVal(x: real) | NaN

  /** One event's dictionary, dataset name to datum. */
  type Event = map<Name, Value>

  const TIMESTAMP: Name := Name("timestamp")

  const MISSING_INT: int := -99999
  const NAN_AS_INT: int := -0x8000_0000_0000_0000

  function TypeOf(v: Value): DType {
    if v.IntVal? then Int else Float
  }

  /** _get_missing_value */
  function Missing(t: DType): (v: Value)
    ensures TypeOf(v) == t
  {
    if t.Int? then IntVal(MISSING_INT) else NaN
  }

  function Truncate(x: real): int {
    if x >= 0.0 then x.Floor else -((-x).Floor)
  }

  /** What is kept of a datum assigned into an array of type t. */
  function Cast(t: DType, v: Value): (r: Value)
    ensures TypeOf(r) == t
    ensures TypeOf(v) == t ==> r == v
  {
    match v
    case IntVal(n) => if t.Int? then v else FloatVal(n as real)
    case FloatVal(x) => if t.Int? then IntVal(Truncate(x)) else v
    case NaN => if t.Int? then IntVal(NAN_AS_INT) else v
  }

  function LastComponent(path: string): string
    decreases |path|
  {
    if path == [] || path[|path| - 1] == '/' then []
    else LastComponent(path[..|path| - 1]) + [path[|path| - 1]]
  }

  predicate IsUnaligned(name: Name) {
    "unaligned_" <= LastComponent(name.path)
  }

  /** A name without a slash is its own last component. */
  lemma {:induction false} PlainPath(name: string)
    requires '/' !in name
    ensures LastComponent(name) == name
  {
    if name != [] {
      PlainPath(name[..|name| - 1]);
    }
  }

  /** What follows a slash, up to the end, is the last component, whatever comes before. */
  lemma {:induction false} LastAfterSlash(dir: string, name: string)
    requires '/' !in name
    ensures LastComponent(dir + "/" + name) == name
  {
    var path := dir + "/" + name;
    if name != [] {
      LastAfterSlash(dir, name[..|name| - 1]);
      assert path[..|path| - 1] == dir + "/" + name[..|name| - 1];
      assert path[|path| - 1] == name[|name| - 1];
    }
  }

  /** Place k is where the last of the components that slashes separate begins. */
  predicate LastBegins(path: string, k: nat) {
    k <= |path| && '/' !in path[k..] && (k == 0 || path[k - 1] == '/')
  }

  /** is_unaligned: the last component of the path starts with the prefix. */
  lemma UnalignedIff(path: string, k: nat)
    requires LastBegins(path, k)
    ensures IsUnaligned(Name(path)) <==> "unaligned_" <= path[k..]
  {
    if k == 0 {
      assert path[0..] == path;
      PlainPath(path);
    } else {
      LastAfterSlash(path[..k - 1], path[k..]);
      assert path == path[..k - 1] + "/" + path[k..];
    }
  }

  /** And there is such a place in every path, so the rule covers them all. */
  lemma {:induction false} LastBeginsSomewhere(path: string) returns (k: nat)
    ensures LastBegins(path, k)
  {
    if path == [] || path[|path| - 1] == '/' {
      k := |path|;
    } else {
      var n := |path| - 1;
      k := LastBeginsSomewhere(path[..n]);
      assert path[k..] == path[..n][k..] + [path[n]];
    }
  }

  /** A nested name in an aligned-looking group, and an aligned name in an unaligned one. */
  lemma NestedNames()
    ensures IsUnaligned(Name("det/unaligned_x")) && !IsUnaligned(Name("unaligned_det/x"))
  {
    assert "det/unaligned_x"[4..] == "unaligned_x";
    UnalignedIff("det/unaligned_x", 4);
    assert "unaligned_det/x"[14..] == "x";
    UnalignedIff("unaligned_det/x", 14);
  }

  function Fill(t: DType, n: nat): (r: seq<Value>)
    ensures |r| == n
  {
    seq(n, _ => Missing(t))
  }

  /** What one event adds to the column of d. */
  function Cell(e: Event, d: Name, t: DType): seq<Value> {
    if d in e then [Cast(t, e[d])] else if IsUnaligned(d) then [] else [Missing(t)]
  }

  /** The ideal column of dataset d over a list of events. */
  function Column(events: seq<Event>, d: Name, t: DType): seq<Value> {
    if events == [] then []
    else Column(events[..|events| - 1], d, t) + Cell(events[|events| - 1], d, t)
  }

  function Flatten(batches: seq<seq<Event>>): seq<Event> {
    if batches == [] then [] else Flatten(batches[..|batches| - 1]) + batches[|batches| - 1]
  }

  function Names(events: seq<Event>): set<Name> {
    if events == [] then {} else Names(events[..|events| - 1]) + events[|events| - 1].Keys
  }

  /** The type a dataset gets: that of the first datum seen for it. */
  function FirstType(events: seq<Event>, d: Name): DType
    requires d in Names(events)
  {
    var rest := events[..|events| - 1];
    if d in Names(rest) then FirstType(rest, d) else TypeOf(events[|events| - 1][d])
  }

  type Table = map<Name, seq<Value>>

  /** Every dataset's rows are its ideal column over the events. */
  ghost predicate Faithful(table: Table, dsets: map<Name, DType>, events: seq<Event>) {
    && table.Keys == dsets.Keys == Names(events)
    && forall d :: d in dsets ==> dsets[d] == FirstType(events, d) && table[d] == Column(events, d, dsets[d])
  }

  /** Row i of an aligned column is event i's datum, or the fill value; so rows of
      equal index in any two aligned columns come from one event. */
  lemma {:induction false} AlignedRow(events: seq<Event>, d: Name, t: DType, i: nat)
    requires !IsUnaligned(d) && i < |events|
    ensures |Column(events, d, t)| == |events|
    ensures Column(events, d, t)[i] == if d in events[i] then Cast(t, events[i][d]) else Missing(t)
  {
    var n := |events| - 1;
    if i < n {
      AlignedRow(events[..n], d, t, i);
    } else if n > 0 {
      AlignedRow(events[..n], d, t, 0);
    }
  }

  lemma {:induction false} AlignedLength(events: seq<Event>, d: Name, t: DType)
    requires !IsUnaligned(d)
    ensures |Column(events, d, t)| == |events|
  {
    if events != [] {
      AlignedRow(events, d, t, 0);
    }
  }

  /** How many events have d. */
  function Having(events: seq<Event>, d: Name): nat {
    if events == [] then 0 else Having(events[..|events| - 1], d) + if d in events[|events| - 1] then 1 else 0
  }

  /** An unaligned column holds exactly the data there are: event i's comes after those of
      the events before it. */
  lemma {:induction false} UnalignedRow(events: seq<Event>, d: Name, t: DType, i: nat)
    requires IsUnaligned(d) && i < |events|
    ensures |Column(events, d, t)| == Having(events, d)
    ensures d in events[i] ==>
              Having(events[..i], d) < Having(events, d)
              && Column(events, d, t)[Having(events[..i], d)] == Cast(t, events[i][d])
  {
    var n := |events| - 1;
    if i < n {
      UnalignedRow(events[..n], d, t, i);
      assert events[..n][..i] == events[..i];
    } else if n > 0 {
      UnalignedRow(events[..n], d, t, 0);
    }
  }

  /** A dataset has the type of the first event's datum that has one. */
  lemma {:induction false} FirstTypeIs(events: seq<Event>, d: Name, i: nat)
    requires i < |events| && d in events[i] && forall j :: 0 <= j < i ==> d !in events[j]
    ensures d in Names(events) && FirstType(events, d) == TypeOf(events[i][d])
  {
    var n := |events| - 1;
    if i < n {
      FirstTypeIs(events[..n], d, i);
    } else {
      NotNamed(events[..n], d);
    }
  }

  lemma {:induction false} NotNamed(events: seq<Event>, d: Name)
    requires forall j :: 0 <= j < |events| ==> d !in events[j]
    ensures d !in Names(events)
  {
    if events != [] {
      NotNamed(events[..|events| - 1], d);
    }
  }

  /** Truncating goes to the nearest integer towards zero. */
  lemma TruncateIsTowardsZero(x: real)
    ensures x >= 0.0 ==> 0.0 <= Truncate(x) as real <= x < Truncate(x) as real + 1.0
    ensures x <= 0.0 ==> Truncate(x) as real - 1.0 < x <= Truncate(x) as real <= 0.0
  {
  }

  lemma {:induction false} ColumnConcat(a: seq<Event>, b: seq<Event>, d: Name, t: DType)
    ensures Column(a + b, d, t) == Column(a, d, t) + Column(b, d, t)
  {
    if b == [] {
      assert a + b == a;
    } else {
      var b' := b[..|b| - 1];
      var last := Cell(b[|b| - 1], d, t);
      assert (a + b)[..|a + b| - 1] == a + b';
      assert Column(a + b, d, t) == Column(a + b', d, t) + last;
      ColumnConcat(a, b', d, t);
      assert Column(b, d, t) == Column(b', d, t) + last;
    }
  }

  lemma {:induction false} NamesConcat(a: seq<Event>, b: seq<Event>)
    ensures Names(a + b) == Names(a) + Names(b)
  {
    if b == [] {
      assert a + b == a;
    } else {
      NamesConcat(a, b[..|b| - 1]);
      assert (a + b)[..|a + b| - 1] == a + b[..|b| - 1];
    }
  }

  /** Until a dataset appears its column holds nothing but fill values. */
  lemma {:induction false} AbsentColumn(events: seq<Event>, d: Name, t: DType)
    requires d !in Names(events)
    ensures Column(events, d, t) == if IsUnaligned(d) then [] else Fill(t, |events|)
  {
    if events != [] {
      AbsentColumn(events[..|events| - 1], d, t);
    }
  }
}
