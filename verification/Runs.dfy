/** Runs of a state machine: a step function that refuses disabled actions,
    folded over a schedule. Every concurrent component below is one such
    machine, and a schedule is any interleaving of its threads' actions. */
module Runs {

  datatype Option<+T> = None | Some(value: T)

  /** The state after a schedule, or None when some action was not enabled. */
  function Exec<S, A>(step: (S, A) -> Option<S>, s: S, acts: seq<A>): Option<S>
  {
    if acts == [] then Some(s)
    else
      match Exec(step, s, acts[..|acts| - 1])
      case None => None
      case Some(t) => step(t, acts[|acts| - 1])
  }

  /** What holds initially and survives every step holds after every schedule. */
  lemma {:induction false} Invariant<S(!new), A(!new)>(step: (S, A) -> Option<S>, inv: S -> bool, s: S, acts: seq<A>)
    requires inv(s)
    requires forall t: S, a: A {:trigger step(t, a)} :: inv(t) && step(t, a).Some? ==> inv(step(t, a).value)
    ensures Exec(step, s, acts).Some? ==> inv(Exec(step, s, acts).value)
  {
    if acts != [] {
      Invariant(step, inv, s, acts[..|acts| - 1]);
    }
  }

  /** Schedules compose. */
  lemma {:induction false} ExecSplit<S(!new), A(!new)>(step: (S, A) -> Option<S>, s: S, a: seq<A>, b: seq<A>)
    ensures Exec(step, s, a + b) ==
            match Exec(step, s, a)
            case None => None
            case Some(t) => Exec(step, t, b)
  {
    if b == [] {
      assert a + b == a;
    } else {
      var b' := b[..|b| - 1];
      ExecSplit(step, s, a, b');
      assert (a + b)[..|a + b| - 1] == a + b';
      assert (a + b)[|a + b| - 1] == b[|b| - 1];
    }
  }

  lemma ExecFour<S(!new), A(!new)>(step: (S, A) -> Option<S>, s: S, acts: seq<A>, t: S, u: S, v: S)
    requires |acts| == 4
    requires step(s, acts[0]) == Some(t) && step(t, acts[1]) == Some(u) && step(u, acts[2]) == Some(v)
    ensures Exec(step, s, acts) == step(v, acts[3])
  {
    assert acts[..3][..2] == acts[..2] && acts[..2][..1] == acts[..1] && acts[..1][..0] == [];
    assert Exec(step, s, acts[..1]) == Some(t);
    assert Exec(step, s, acts[..2]) == Some(u);
    assert Exec(step, s, acts[..3]) == Some(v);
  }
}
