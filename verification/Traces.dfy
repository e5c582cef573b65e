/**
 * Lists of protocol steps from one state to another, for any protocol given by its step relation,
 * and what others do between the steps of one participant.
 */
module Traces {

  ghost predicate Steps<S(!new), A(!new)>(next: (S, A, S) -> bool, s: S, trace: seq<A>, s': S)
    decreases |trace|
  {
    if trace == [] then s' == s
    else exists m :: next(s, trace[0], m) && Steps(next, m, trace[1..], s')
  }

  lemma NoSteps<S(!new), A(!new)>(next: (S, A, S) -> bool, s: S)
    ensures Steps(next, s, [], s)
  {
  }

  lemma {:induction false} OneMore<S(!new), A(!new)>(next: (S, A, S) -> bool, s: S, trace: seq<A>, m: S, a: A, s': S)
    requires Steps(next, s, trace, m) && next(m, a, s')
    ensures Steps(next, s, trace + [a], s')
    decreases |trace|
  {
    if trace == [] {
      assert ([] + [a])[1..] == [];
      assert next(s, a, s') && Steps(next, s', [], s');
    } else {
      var x :| next(s, trace[0], x) && Steps(next, x, trace[1..], m);
      OneMore(next, x, trace[1..], m, a, s');
      assert (trace + [a])[1..] == trace[1..] + [a];
    }
  }

  lemma {:induction false} StepsOn<S(!new), A(!new)>(next: (S, A, S) -> bool, s: S, trace: seq<A>, m: S, more: seq<A>, s': S)
    requires Steps(next, s, trace, m) && Steps(next, m, more, s')
    ensures Steps(next, s, trace + more, s')
    decreases |trace|
  {
    if trace == [] {
      assert [] + more == more;
    } else {
      var x :| next(s, trace[0], x) && Steps(next, x, trace[1..], m);
      StepsOn(next, x, trace[1..], m, more, s');
      assert (trace + more)[0] == trace[0] && (trace + more)[1..] == trace[1..] + more;
    }
  }

  // What every step keeps, a whole trace keeps.
  lemma {:induction false} StepsKeep<S(!new), A(!new)>(next: (S, A, S) -> bool, inv: S -> bool, s: S, trace: seq<A>, s': S)
    requires Steps(next, s, trace, s') && inv(s)
    requires forall x, a, y :: inv(x) && next(x, a, y) ==> inv(y)
    ensures inv(s')
    decreases |trace|
  {
    if trace != [] {
      var m :| next(s, trace[0], m) && Steps(next, m, trace[1..], s');
      StepsKeep(next, inv, m, trace[1..], s');
    }
  }

  // What others do, moment by moment, until they have nothing more to do; what is not possible
  // when its turn comes is left out.
  type Meanwhile<A> = seq<seq<A>>

  function Moment<A>(others: Meanwhile<A>, t: nat): seq<A>
  {
    if t < |others| then others[t] else []
  }

  predicate Quiet<A(==)>(others: Meanwhile<A>)
  {
    forall t :: 0 <= t < |others| ==> others[t] == []
  }

  function MomentsLeft<A>(others: Meanwhile<A>, t: nat): nat
  {
    if t < |others| then |others| - t else 0
  }
}
