/** The generic state machine, and the inverse image of a target state. */
module StateMachines {
  import opened Wrappers

  datatype Transition<S> = Transition(from: S, to: S)

  datatype TransitionError<S> = CannotTransition(from: S, to: S)

  class StateMachine<S(==)> {
    var currentState: S
    var transitions: map<S, map<S, bool>>

    // A Go map of maps reads as false where either key is missing.
    predicate Allows(from: S, to: S)
      reads this`transitions
    {
      from in transitions && to in transitions[from] && transitions[from][to]
    }

    constructor (initialState: S, list: seq<Transition<S>>)
      ensures currentState == initialState
      ensures forall from, to :: Allows(from, to) <==> Transition(from, to) in list
    {
      currentState := initialState;
      transitions := map[];
      new;
      for i := 0 to |list|
        invariant currentState == initialState
        invariant forall from, to :: Allows(from, to) <==> Transition(from, to) in list[..i]
      {
        var t := list[i];
        if t.from !in transitions {
          transitions := transitions[t.from := map[]];
        }
        transitions := transitions[t.from := transitions[t.from][t.to := true]];
      }
    }

    function CanTransitionTo(target: S): (ok: bool)
      reads this
      ensures ok <==> Allows(currentState, target)
    {
      if currentState !in transitions then false
      else target in transitions[currentState] && transitions[currentState][target]
    }

    method TransitionTo(target: S) returns (o: Outcome<TransitionError<S>>)
      modifies this`currentState
      ensures o.Done? <==> old(Allows(currentState, target))
      ensures currentState == if o.Done? then target else old(currentState)
    {
      if CanTransitionTo(target) {
        currentState := target;
        return Done;
      }
      return Failed(CannotTransition(currentState, target));
    }
  }

  // The states of `all`, in order, from which `list` leads to `target`.
  function Sources<S(==)>(list: seq<Transition<S>>, all: seq<S>, target: S): seq<S> {
    if all == [] then []
    else (if Transition(all[0], target) in list then [all[0]] else []) + Sources(list, all[1..], target)
  }

  lemma {:induction false} SourcesSnoc<S>(list: seq<Transition<S>>, all: seq<S>, s: S, target: S)
    ensures Sources(list, all + [s], target) ==
            Sources(list, all, target) + if Transition(s, target) in list then [s] else []
  {
    if all == [] {
      assert [s][1..] == [];
    } else {
      assert (all + [s])[1..] == all[1..] + [s];
      SourcesSnoc(list, all[1..], s, target);
    }
  }

  /** The source statuses are exactly the states that can move to the target. */
  lemma {:induction false} SourcesExact<S>(list: seq<Transition<S>>, all: seq<S>, target: S, s: S)
    ensures s in Sources(list, all, target) <==> s in all && Transition(s, target) in list
  {
    if all != [] {
      assert s in all <==> s == all[0] || s in all[1..];
      SourcesExact(list, all[1..], target, s);
    }
  }

  // SourceStatuses of a status type whose values are `all`.
  method SourceStatuses<S(==)>(list: seq<Transition<S>>, all: seq<S>, initialState: S, target: S) returns (fromStates: seq<S>)
    ensures fromStates == Sources(list, all, target)
    ensures forall s :: s in fromStates <==> s in all && Transition(s, target) in list
  {
    var stateMachine := new StateMachine(initialState, list);
    fromStates := [];
    for i := 0 to |all|
      invariant fromStates == Sources(list, all[..i], target)
      invariant forall from, to :: stateMachine.Allows(from, to) <==> Transition(from, to) in list
    {
      SourcesSnoc(list, all[..i], all[i], target);
      assert all[..i + 1] == all[..i] + [all[i]];
      if stateMachine.Allows(all[i], target) {
        fromStates := fromStates + [all[i]];
      } else {
        assert fromStates == fromStates + [];
      }
    }
    assert all[..|all|] == all;
    forall s
      ensures s in fromStates <==> s in all && Transition(s, target) in list
    {
      SourcesExact(list, all, target, s);
    }
  }
}
