// Shared value types, and executions of a guarded transition system.

module Common {

  datatype Option<+T> = None | Some(value: T)

  datatype Result<+T, +E> = Ok(value: T) | Err(error: E)

  newtype Byte = b: int | 0 <= b < 256

  type Bytes = seq<Byte>
}

module Runs {
  import opened Common

  /** The state after a sequence of actions; None as soon as one of them is not enabled. */
  ghost function Execute<S, A>(next: (S, A) -> Option<S>, s: S, actions: seq<A>): Option<S>
    decreases |actions|
  {
    if actions == [] then Some(s)
    else match next(s, actions[0])
      case None => None
      case Some(s') => Execute(next, s', actions[1..])
  }

  /** What one step keeps, every run keeps. */
  lemma {:induction false} InvariantOverRun<S(!new), A(!new)>(
    next: (S, A) -> Option<S>, inv: S -> bool, s: S, actions: seq<A>)
    requires inv(s)
    requires forall s, a {:trigger next(s, a)} :: inv(s) && next(s, a).Some? ==> inv(next(s, a).value)
    ensures Execute(next, s, actions).Some? ==> inv(Execute(next, s, actions).value)
    decreases |actions|
  {
    if actions != [] && next(s, actions[0]).Some? {
      InvariantOverRun(next, inv, next(s, actions[0]).value, actions[1..]);
    }
  }

  lemma ExecuteStep<S, A>(next: (S, A) -> Option<S>, s: S, a: A, more: seq<A>)
    requires next(s, a).Some?
    ensures Execute(next, s, [a] + more) == Execute(next, next(s, a).value, more)
  {
    assert ([a] + more)[1..] == more;
  }

  /** A run can be continued from where it stopped. */
  lemma {:induction false} ExecuteAppend<S, A>(next: (S, A) -> Option<S>, s: S, actions: seq<A>, more: seq<A>)
    requires Execute(next, s, actions).Some?
    ensures Execute(next, s, actions + more) == Execute(next, Execute(next, s, actions).value, more)
    decreases |actions|
  {
    if actions == [] {
      assert actions + more == more;
    } else {
      assert (actions + more)[1..] == actions[1..] + more;
      ExecuteAppend(next, next(s, actions[0]).value, actions[1..], more);
    }
  }

  /** A sequence of actions that leads from one state to another. */
  ghost predicate Leads<S(!new), A>(next: (S, A) -> Option<S>, s: S, actions: seq<A>, s': S) {
    Execute(next, s, actions) == Some(s')
  }

  lemma LeadsOn<S(!new), A>(next: (S, A) -> Option<S>, s: S, actions: seq<A>, m: S, a: A, s': S)
    requires Leads(next, s, actions, m) && next(m, a) == Some(s')
    ensures Leads(next, s, actions + [a], s')
  {
    ExecuteAppend(next, s, actions, [a]);
    assert [a] == [a] + [];
    ExecuteStep(next, m, a, []);
  }

  lemma LeadsFurther<S(!new), A>(next: (S, A) -> Option<S>, s: S, actions: seq<A>, m: S, more: seq<A>, s': S)
    requires Leads(next, s, actions, m) && Leads(next, m, more, s')
    ensures Leads(next, s, actions + more, s')
  {
    ExecuteAppend(next, s, actions, more);
  }
}
