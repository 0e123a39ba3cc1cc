/** Shared vocabulary: optional values, results, and finite runs of a transition system. */
module Prelude {

  datatype Option<+T> = None | Some(value: T)

  datatype Result<+T, +E> = Ok(value: T) | Err(error: E)

  /** A transition system is a partial function from a state and an action to the next state:
      `None` says the action is not enabled. `Run` performs a whole sequence of actions. */
  function Run<S, A>(next: (S, A) -> Option<S>, s: S, actions: seq<A>): Option<S>
    decreases |actions|
  {
    if actions == [] then Some(s)
    else match next(s, actions[0])
      case None => None
      case Some(s') => Run(next, s', actions[1..])
  }

  /** What every enabled step keeps, every run keeps. */
  lemma {:induction false} RunKeeps<S(!new), A(!new)>(next: (S, A) -> Option<S>, inv: S -> bool, s: S, actions: seq<A>)
    requires inv(s)
    requires forall t, a :: inv(t) && next(t, a).Some? ==> inv(next(t, a).value)
    ensures Run(next, s, actions).Some? ==> inv(Run(next, s, actions).value)
    decreases |actions|
  {
    if actions != [] && next(s, actions[0]).Some? {
      RunKeeps(next, inv, next(s, actions[0]).value, actions[1..]);
    }
  }

  lemma RunOne<S, A>(next: (S, A) -> Option<S>, s: S, a: A)
    ensures Run(next, s, [a]) == next(s, a)
  {
    assert Run(next, s, [a]) == match next(s, a) case None => None case Some(t) => Run(next, t, [a][1..]);
  }

  /** A run continued by another is a run. */
  lemma {:induction false} RunBoth<S, A>(next: (S, A) -> Option<S>, s: S, before: seq<A>, after: seq<A>)
    requires Run(next, s, before).Some?
    ensures Run(next, s, before + after) == Run(next, Run(next, s, before).value, after)
    decreases |before|
  {
    if before == [] {
      assert before + after == after;
    } else {
      assert (before + after)[0] == before[0] && (before + after)[1..] == before[1..] + after;
      RunBoth(next, next(s, before[0]).value, before[1..], after);
    }
  }

  /** A run continued by one more enabled action is a run. */
  lemma RunSnoc<S, A>(next: (S, A) -> Option<S>, s: S, actions: seq<A>, a: A)
    requires Run(next, s, actions).Some?
    ensures Run(next, s, actions + [a]) == next(Run(next, s, actions).value, a)
  {
    RunBoth(next, s, actions, [a]);
    RunOne(next, Run(next, s, actions).value, a);
  }

  /** There is always an unused number. */
  lemma {:induction false} Bound(ids: set<nat>) returns (b: nat)
    ensures forall id :: id in ids ==> id < b
    decreases |ids|
  {
    b := 0;
    if id :| id in ids {
      var others := Bound(ids - {id});
      b := if others <= id then id + 1 else others;
      assert ids == (ids - {id}) + {id};
    }
  }
}
