/** The fan-out / fan-in of psdaq/drp/PGPDetector.cc: the reader deals batches to
    n workers round-robin, each worker returns them through its own queue, and
    the collector gathers from those queues round-robin. */
module RoundRobin {
  import opened Runs

  /** dispatched and collected are the histories of the two ends. */
  datatype State<T> = State(
    n: nat, inQ: seq<seq<T>>, hand: seq<Option<T>>, outQ: seq<seq<T>>,
    dispatched: seq<T>, collected: seq<T>)

  datatype Action<T> =
    | Dispatch(batch: T)
    | Take(worker: nat)     // a worker pops its input queue
    | Finish(worker: nat)   // and pushes on its output queue
    | Collect

  ghost predicate WellFormed<T>(s: State<T>) {
    s.n > 0 && |s.inQ| == |s.hand| == |s.outQ| == s.n
  }

  function Idle<T>(n: nat): State<T> {
    State(n, seq(n, i => []), seq(n, i => None), seq(n, i => []), [], [])
  }

  function DispatchTo<T>(s: State<T>, b: T): State<T>
    requires s.n > 0 && |s.inQ| == s.n
  {
    var w := |s.dispatched| % s.n;
    s.(inQ := s.inQ[w := s.inQ[w] + [b]], dispatched := s.dispatched + [b])
  }

  predicate CanTake<T(!new)>(s: State<T>, w: nat) {
    w < s.n && w < |s.inQ| && w < |s.hand| && s.hand[w].None? && |s.inQ[w]| > 0
  }

  predicate CanFinish<T(!new)>(s: State<T>, w: nat) {
    w < s.n && w < |s.hand| && w < |s.outQ| && s.hand[w].Some?
  }

  predicate CanCollect<T(!new)>(s: State<T>) {
    s.n > 0 && |s.outQ| == s.n && |s.outQ[|s.collected| % s.n]| > 0
  }

  function DoTake<T(!new)>(s: State<T>, w: nat): State<T>
    requires CanTake(s, w)
  {
    s.(inQ := s.inQ[w := s.inQ[w][1..]], hand := s.hand[w := Some(s.inQ[w][0])])
  }

  function DoFinish<T(!new)>(s: State<T>, w: nat): State<T>
    requires CanFinish(s, w)
  {
    s.(hand := s.hand[w := None], outQ := s.outQ[w := s.outQ[w] + [s.hand[w].value]])
  }

  function DoCollect<T(!new)>(s: State<T>): State<T>
    requires CanCollect(s)
  {
    var w := |s.collected| % s.n;
    s.(outQ := s.outQ[w := s.outQ[w][1..]], collected := s.collected + [s.outQ[w][0]])
  }

  function Step<T(!new)>(s: State<T>, a: Action<T>): Option<State<T>> {
    match a
    case Dispatch(b) => if s.n > 0 && |s.inQ| == s.n then Some(DispatchTo(s, b)) else None
    case Take(w) => if CanTake(s, w) then Some(DoTake(s, w)) else None
    case Finish(w) => if CanFinish(s, w) then Some(DoFinish(s, w)) else None
    case Collect => if CanCollect(s) then Some(DoCollect(s)) else None
  }

  /** The elements of a stream that fall to worker w. */
  function Stripe<T>(d: seq<T>, w: nat, n: nat): seq<T>
    requires n > 0
  {
    if d == [] then []
    else Stripe(d[..|d| - 1], w, n) + if (|d| - 1) % n == w then [d[|d| - 1]] else []
  }

  function InHand<T>(h: Option<T>): seq<T> {
    if h.Some? then [h.value] else []
  }

  /** Everything worker w was dealt, oldest first, wherever it now is. */
  function Lane<T>(s: State<T>, w: nat): seq<T>
    requires w < s.n && |s.inQ| == |s.hand| == |s.outQ| == s.n
  {
    s.outQ[w] + InHand(s.hand[w]) + s.inQ[w]
  }

  ghost predicate Inv<T>(s: State<T>) {
    && WellFormed(s)
    && s.collected <= s.dispatched
    && forall w :: 0 <= w < s.n ==> Stripe(s.collected, w, s.n) + Lane(s, w) == Stripe(s.dispatched, w, s.n)
  }

  lemma {:induction false} StripePrefix<T>(d: seq<T>, c: nat, w: nat, n: nat)
    requires n > 0 && c <= |d|
    ensures Stripe(d[..c], w, n) <= Stripe(d, w, n)
    ensures c < |d| && c % n == w ==>
              |Stripe(d[..c], w, n)| < |Stripe(d, w, n)| && Stripe(d, w, n)[|Stripe(d[..c], w, n)|] == d[c]
  {
    if c == |d| {
      assert d[..c] == d;
    } else {
      var d' := d[..|d| - 1];
      StripePrefix(d', c, w, n);
      assert d'[..c] == d[..c];
    }
  }

  lemma StripeAppend<T>(d: seq<T>, x: T, w: nat, n: nat)
    requires n > 0
    ensures Stripe(d + [x], w, n) == Stripe(d, w, n) + if |d| % n == w then [x] else []
  {
    assert (d + [x])[..|d|] == d;
  }

  lemma DispatchKeepsInv<T>(s: State<T>, b: T)
    requires Inv(s)
    ensures Inv(DispatchTo(s, b))
  {
    var s' := DispatchTo(s, b);
    forall w | 0 <= w < s.n
      ensures Stripe(s'.collected, w, s.n) + Lane(s', w) == Stripe(s'.dispatched, w, s.n)
    {
      StripeAppend(s.dispatched, b, w, s.n);
      assert Stripe(s.collected, w, s.n) + Lane(s, w) == Stripe(s.dispatched, w, s.n);
    }
  }

  lemma TakeKeepsInv<T(!new)>(s: State<T>, w: nat)
    requires Inv(s) && CanTake(s, w)
    ensures Inv(DoTake(s, w))
  {
    var s' := DoTake(s, w);
    forall v | 0 <= v < s.n ensures Lane(s', v) == Lane(s, v) {
      if v == w {
        assert s.inQ[w] == [s.inQ[w][0]] + s.inQ[w][1..];
      }
    }
  }

  lemma FinishKeepsInv<T(!new)>(s: State<T>, w: nat)
    requires Inv(s) && CanFinish(s, w)
    ensures Inv(DoFinish(s, w))
  {
    var s' := DoFinish(s, w);
    forall v | 0 <= v < s.n ensures Lane(s', v) == Lane(s, v) {
    }
  }

  /** The head of the queue the collector waits on is the next batch dispatched. */
  lemma CollectsNext<T(!new)>(s: State<T>)
    requires Inv(s) && CanCollect(s)
    ensures |s.collected| < |s.dispatched|
    ensures s.outQ[|s.collected| % s.n][0] == s.dispatched[|s.collected|]
  {
    var c, w := |s.collected|, |s.collected| % s.n;
    assert s.dispatched[..c] == s.collected;
    assert s.dispatched[..|s.dispatched|] == s.dispatched;
    StripePrefix(s.dispatched, c, w, s.n);
    var before := Stripe(s.collected, w, s.n);
    assert (before + Lane(s, w))[|before|] == s.outQ[w][0];
  }

  lemma CollectKeepsInv<T(!new)>(s: State<T>)
    requires Inv(s) && CanCollect(s)
    ensures Inv(DoCollect(s)) && DoCollect(s).collected == s.dispatched[..|s.collected| + 1]
  {
    CollectsNext(s);
    var s' := DoCollect(s);
    assert s'.collected == s.dispatched[..|s.collected| + 1];
    forall v | 0 <= v < s.n
      ensures Stripe(s'.collected, v, s.n) + Lane(s', v) == Stripe(s'.dispatched, v, s.n)
    {
      StripeAppend(s.collected, s'.collected[|s.collected|], v, s.n);
      assert Stripe(s.collected, v, s.n) + Lane(s, v) == Stripe(s.dispatched, v, s.n);
    }
  }

  lemma StepKeepsInv<T(!new)>(s: State<T>, a: Action<T>)
    requires Inv(s) && Step(s, a).Some?
    ensures Inv(Step(s, a).value)
  {
    match a
    case Dispatch(b) => DispatchKeepsInv(s, b);
    case Take(w) => TakeKeepsInv(s, w);
    case Finish(w) => FinishKeepsInv(s, w);
    case Collect => CollectKeepsInv(s);
  }

  lemma {:induction false} IdleInv<T(!new)>(n: nat)
    requires n > 0
    ensures Inv(Idle<T>(n))
  {
  }

  /** For every schedule of reader, workers and collector, the k-th batch
      collected is the k-th batch dispatched. */
  lemma CollectedInDispatchOrder<T(!new)>(n: nat, acts: seq<Action<T>>)
    requires n > 0
    ensures var r := Exec(Step<T>, Idle<T>(n), acts);
            r.Some? ==> r.value.collected <= r.value.dispatched && Inv(r.value)
  {
    IdleInv<T>(n);
    forall s: State<T>, a: Action<T> {:trigger Step(s, a)} | Inv(s) && Step(s, a).Some? ensures Inv(Step(s, a).value) {
      StepKeepsInv(s, a);
    }
    Invariant(Step<T>, Inv<T>, Idle<T>(n), acts);
  }

  /** While a dispatched batch is uncollected, the worker holding the next one
      can take or finish a batch, or the collector can collect: no deadlock. */
  lemma PipelineMoves<T(!new)>(s: State<T>)
    requires Inv(s) && |s.collected| < |s.dispatched|
    ensures var w := |s.collected| % s.n;
            CanCollect(s) || CanFinish(s, w) || CanTake(s, w)
  {
    var c, w := |s.collected|, |s.collected| % s.n;
    assert s.dispatched[..c] == s.collected;
    StripePrefix(s.dispatched, c, w, s.n);
    assert |Lane(s, w)| > 0 by {
      assert Stripe(s.collected, w, s.n) + Lane(s, w) == Stripe(s.dispatched, w, s.n);
    }
  }
}
