/**
 A generic finite-state-machine engine. A machine holds a current state, a piece of
 caller-owned "managed" data and a fixed table of transitions; firing an event looks up
 the unique transition leaving the current state on that event's kind, moves to its
 destination and runs its optional trigger on the managed data.

 Events are classified by a caller-supplied `kind` function that stands for the
 variant (discriminant) of the event: two events of the same kind match the same
 transitions, whatever their payloads.
 */
module Fsm {

  datatype Option<T> = None | Some(value: T)

  datatype Result<T, Err> = Ok(value: T) | Err(error: Err)

  /** The two ways firing an event can fail; the engine never picks among several matches. */
  datatype FsmError = NoMatchingTransition | AmbiguousTransition

  /** A trigger receives the fired event and the managed data and yields the new managed data. */
  type Trigger<!E, !M> = (E, M) -> M

  /**
   One edge of the table: from `from` to `to` on events of the kind of `event`
   (a template: its payload is never looked at), with an optional trigger.
   */
  datatype Transition<S, !E, !M> = Transition(from: S, to: S, event: E, func: Option<Trigger<E, M>>)

  /** What a machine exposes: its current state and its managed data. */
  datatype Config<S, M> = Config(state: S, managed: M)

  /** A transition without a trigger. */
  function NewTransition<S, E, M>(fromState: S, toState: S, trigger: E): (t: Transition<S, E, M>)
    ensures t.from == fromState && t.to == toState && t.event == trigger
    ensures t.func.None?
  {
    Transition(fromState, toState, trigger, None)
  }

  /** A transition that runs `triggerFunc` when it fires. */
  function NewTriggeredTransition<S, E, M>(fromState: S, toState: S, trigger: E, triggerFunc: Trigger<E, M>)
    : (t: Transition<S, E, M>)
    ensures t.from == fromState && t.to == toState && t.event == trigger
    ensures t.func == Some(triggerFunc)
  {
    Transition(fromState, toState, trigger, Some(triggerFunc))
  }

  /** `t` leaves `state` on events of the same kind as `e`; payloads play no part. */
  predicate Matches<S(==), E, K(==), M>(t: Transition<S, E, M>, kind: E -> K, state: S, e: E)
  {
    t.from == state && kind(t.event) == kind(e)
  }

  /** Entry `i` is the one and only entry of `table` that matches. */
  ghost predicate IsUniqueMatch<S, E, K, M>(table: seq<Transition<S, E, M>>, kind: E -> K, state: S, e: E, i: int)
  {
    0 <= i < |table| && Matches(table[i], kind, state, e) &&
    forall j :: 0 <= j < |table| && j != i ==> !Matches(table[j], kind, state, e)
  }

  /** No two entries of `table` leave the same state on the same event kind. */
  ghost predicate Unambiguous<S, E, K, M>(table: seq<Transition<S, E, M>>, kind: E -> K)
  {
    forall i, j :: 0 <= i < j < |table| ==>
      !(table[i].from == table[j].from && kind(table[i].event) == kind(table[j].event))
  }

  /**
   The positions of all matching entries, in table order: the first scan of the
   table, which collects every entry that matches.
   */
  function MatchIndices<S(==), E, K(==), M>(table: seq<Transition<S, E, M>>, kind: E -> K, state: S, e: E)
    : (r: seq<nat>)
    ensures forall k :: 0 <= k < |r| ==> r[k] < |table| && Matches(table[r[k]], kind, state, e)
    ensures forall i :: 0 <= i < |table| && Matches(table[i], kind, state, e) ==> i in r
    ensures forall k, l :: 0 <= k < l < |r| ==> r[k] < r[l]
    decreases |table|
  {
    if |table| == 0 then []
    else
      var n := |table| - 1;
      var front := MatchIndices(table[..n], kind, state, e);
      if Matches(table[n], kind, state, e) then front + [n] else front
  }

  /** The position of the first matching entry, if any: the second scan of the table. */
  function FirstMatch<S(==), E, K(==), M>(table: seq<Transition<S, E, M>>, kind: E -> K, state: S, e: E)
    : (r: Option<nat>)
    ensures r.Some? ==> r.value < |table| && Matches(table[r.value], kind, state, e)
    ensures r.Some? ==> forall j :: 0 <= j < r.value ==> !Matches(table[j], kind, state, e)
    ensures r.None? ==> forall j :: 0 <= j < |table| ==> !Matches(table[j], kind, state, e)
  {
    if |table| == 0 then None
    else if Matches(table[0], kind, state, e) then Some(0)
    else
      match FirstMatch(table[1..], kind, state, e)
      case None => None
      case Some(i) => Some(i + 1)
  }

  /** The managed data after running an optional trigger on the fired event. */
  function RunTrigger<E, M>(func: Option<Trigger<E, M>>, e: E, managed: M): (m: M)
  {
    match func
    case None => managed
    case Some(f) => f(e, managed)
  }

  /**
   The outcome of firing `e` in configuration `c`: no match and more than one match
   are errors; a single match moves to its destination and runs its trigger, if any,
   on the actual fired event.
   */
  function Fire<S(==), E, K(==), M>(table: seq<Transition<S, E, M>>, kind: E -> K, c: Config<S, M>, e: E)
    : (r: Result<Config<S, M>, FsmError>)
    ensures r == Err(NoMatchingTransition) ==> forall i :: 0 <= i < |table| ==> !Matches(table[i], kind, c.state, e)
    ensures r == Err(AmbiguousTransition) ==>
              exists i, j :: 0 <= i < j < |table| && Matches(table[i], kind, c.state, e) && Matches(table[j], kind, c.state, e)
    ensures r.Ok? ==> exists i :: IsUniqueMatch(table, kind, c.state, e, i) && r.value.state == table[i].to
                                  && r.value.managed == RunTrigger(table[i].func, e, c.managed)
  {
    var items := MatchIndices(table, kind, c.state, e);
    if |items| == 0 then Err(NoMatchingTransition)
    else if |items| != 1 then
      assert Matches(table[items[0]], kind, c.state, e) && Matches(table[items[1]], kind, c.state, e);
      Err(AmbiguousTransition)
    else
      SingleMatchIsUnique(table, kind, c.state, e);
      var t := table[items[0]];
      Ok(Config(t.to, RunTrigger(t.func, e, c.managed)))
  }

  /** When the first scan collects a single entry, that entry is the only match in the table. */
  lemma SingleMatchIsUnique<S, E, K, M>(table: seq<Transition<S, E, M>>, kind: E -> K, state: S, e: E)
    requires |MatchIndices(table, kind, state, e)| == 1
    ensures IsUniqueMatch(table, kind, state, e, MatchIndices(table, kind, state, e)[0])
  {
    var items := MatchIndices(table, kind, state, e);
    forall j | 0 <= j < |table| && j != items[0]
      ensures !Matches(table[j], kind, state, e)
    {
      assert j !in items;
    }
  }

  /** The last of strictly increasing positions lies at least as far from the first as their count allows. */
  lemma {:induction false} IncreasingSpan(r: seq<nat>)
    requires |r| > 0
    requires forall k, l :: 0 <= k < l < |r| ==> r[k] < r[l]
    ensures r[|r| - 1] - r[0] >= |r| - 1
  {
    if |r| > 1 {
      IncreasingSpan(r[..|r| - 1]);
      assert r[|r| - 2] < r[|r| - 1];
    }
  }

  /** When some entry matches, the second scan finds the first entry the first scan collected. */
  lemma {:induction false} UniqueMatchIsFirst<S, E, K, M>(table: seq<Transition<S, E, M>>, kind: E -> K, state: S, e: E)
    requires |MatchIndices(table, kind, state, e)| > 0
    ensures FirstMatch(table, kind, state, e) == Some(MatchIndices(table, kind, state, e)[0])
  {
    var items := MatchIndices(table, kind, state, e);
    var first := FirstMatch(table, kind, state, e);
    assert Matches(table[items[0]], kind, state, e);
    assert first.Some?;
    var i := first.value;
    assert i in items;
    var k :| 0 <= k < |items| && items[k] == i;
    assert items[0] <= items[k];
  }

  /** Firing fails with NoMatchingTransition exactly when no entry leaves the state on the event's kind. */
  lemma NoMatchingTransitionIff<S, E, K, M>(table: seq<Transition<S, E, M>>, kind: E -> K, c: Config<S, M>, e: E)
    ensures Fire(table, kind, c, e) == Err(NoMatchingTransition)
        <==> forall i :: 0 <= i < |table| ==> !Matches(table[i], kind, c.state, e)
  {
    var items := MatchIndices(table, kind, c.state, e);
    if |items| > 0 {
      assert Matches(table[items[0]], kind, c.state, e);
    }
  }

  /**
   Firing fails with AmbiguousTransition exactly when two different entries leave the
   state on the event's kind, whichever of them comes first in the table.
   */
  lemma AmbiguousTransitionIff<S, E, K, M>(table: seq<Transition<S, E, M>>, kind: E -> K, c: Config<S, M>, e: E)
    ensures Fire(table, kind, c, e) == Err(AmbiguousTransition)
        <==> exists i, j :: 0 <= i < |table| && 0 <= j < |table| && i != j
                            && Matches(table[i], kind, c.state, e) && Matches(table[j], kind, c.state, e)
  {
    var items := MatchIndices(table, kind, c.state, e);
    if |items| > 1 {
      assert items[0] < items[1];
      assert Matches(table[items[0]], kind, c.state, e) && Matches(table[items[1]], kind, c.state, e);
    }
    if i, j :| 0 <= i < |table| && 0 <= j < |table| && i != j
              && Matches(table[i], kind, c.state, e) && Matches(table[j], kind, c.state, e) {
      assert i in items && j in items;
      var ki :| 0 <= ki < |items| && items[ki] == i;
      var kj :| 0 <= kj < |items| && items[kj] == j;
      assert ki != kj;
    }
  }

  /** In a table with at most one entry per state and event kind, no event is ever ambiguous. */
  lemma UnambiguousTableNeverAmbiguous<S, E, K, M>(table: seq<Transition<S, E, M>>, kind: E -> K, c: Config<S, M>, e: E)
    requires Unambiguous(table, kind)
    ensures Fire(table, kind, c, e) != Err(AmbiguousTransition)
  {
    AmbiguousTransitionIff(table, kind, c, e);
    assert forall i, j :: 0 <= i < |table| && 0 <= j < |table| && i != j && Matches(table[i], kind, c.state, e)
                          ==> !Matches(table[j], kind, c.state, e);
  }

  /** Firing succeeds exactly when one entry alone matches. */
  lemma FireOkIff<S, E, K, M>(table: seq<Transition<S, E, M>>, kind: E -> K, c: Config<S, M>, e: E)
    ensures Fire(table, kind, c, e).Ok? <==> exists i :: IsUniqueMatch(table, kind, c.state, e, i)
  {
    if i :| IsUniqueMatch(table, kind, c.state, e, i) {
      FiresUniqueMatch(table, kind, c, e, i);
    }
  }

  /**
   When entry `i` is the only match, firing moves to its destination; its trigger, if
   any, is applied once to the actual fired event and the old managed data, and without
   a trigger the managed data is unchanged.
   */
  lemma FiresUniqueMatch<S, E, K, M>(table: seq<Transition<S, E, M>>, kind: E -> K, c: Config<S, M>, e: E, i: int)
    requires IsUniqueMatch(table, kind, c.state, e, i)
    ensures Fire(table, kind, c, e).Ok?
    ensures Fire(table, kind, c, e).value.state == table[i].to
    ensures table[i].func.None? ==> Fire(table, kind, c, e).value.managed == c.managed
    ensures table[i].func.Some? ==> Fire(table, kind, c, e).value.managed == table[i].func.value(e, c.managed)
  {
    var items := MatchIndices(table, kind, c.state, e);
    assert i in items;
    assert forall k :: 0 <= k < |items| ==> items[k] == i;
    IncreasingSpan(items);
  }

  /** The payload of the fired event takes no part in matching: only its kind does. */
  lemma {:induction false} MatchIndicesIgnorePayload<S, E, K, M>(table: seq<Transition<S, E, M>>, kind: E -> K, state: S, e1: E, e2: E)
    requires kind(e1) == kind(e2)
    ensures MatchIndices(table, kind, state, e1) == MatchIndices(table, kind, state, e2)
    decreases |table|
  {
    if |table| > 0 {
      MatchIndicesIgnorePayload(table[..|table| - 1], kind, state, e1, e2);
    }
  }

  /**
   Two events of the same kind fail in the same way, or both succeed and reach the
   same state; only what a trigger does with the payload can tell them apart.
   */
  lemma FireIgnoresPayload<S, E, K, M>(table: seq<Transition<S, E, M>>, kind: E -> K, c: Config<S, M>, e1: E, e2: E)
    requires kind(e1) == kind(e2)
    ensures Fire(table, kind, c, e1).Err? ==> Fire(table, kind, c, e2) == Fire(table, kind, c, e1)
    ensures Fire(table, kind, c, e1).Ok? ==> Fire(table, kind, c, e2).Ok?
    ensures Fire(table, kind, c, e1).Ok? ==> Fire(table, kind, c, e2).value.state == Fire(table, kind, c, e1).value.state
  {
    MatchIndicesIgnorePayload(table, kind, c.state, e1, e2);
  }

  /**
   The engine: a current state, the managed data and a transition table that never
   changes after construction. `kind` classifies events by variant.
   */
  class FiniteStateMachine<S(==), E, K(==), M> {
    var currentState: S
    var managed: M
    const transitions: seq<Transition<S, E, M>>
    const kind: E -> K

    /** The observable configuration of the machine. */
    function Snapshot(): Config<S, M>
      reads this
    {
      Config(currentState, managed)
    }

    /** A machine in `startState` holding `managedState`, with the given table. */
    constructor (startState: S, managedState: M, transitions: seq<Transition<S, E, M>>, kind: E -> K)
      ensures currentState == startState && managed == managedState
      ensures this.transitions == transitions && this.kind == kind
    {
      this.currentState := startState;
      this.managed := managedState;
      this.transitions := transitions;
      this.kind := kind;
    }

    /**
     Fires `e`. With no matching entry, or more than one, nothing changes and the
     error is returned; otherwise the state becomes the match's destination and then
     its trigger, if any, rewrites the managed data.
     */
    method TriggerEvent(e: E) returns (r: Result<(), FsmError>)
      modifies this
      ensures var out := Fire(transitions, kind, old(Snapshot()), e);
              match out
              case Ok(c) => r == Ok(()) && Snapshot() == c
              case Err(err) => r == Err(err) && Snapshot() == old(Snapshot())
    {
      var items := MatchIndices(transitions, kind, currentState, e);
      if |items| == 0 {
        return Err(NoMatchingTransition);
      }
      if |items| != 1 {
        return Err(AmbiguousTransition);
      }
      var stateToFind := currentState;
      UniqueMatchIsFirst(transitions, kind, stateToFind, e);
      var actual := transitions[FirstMatch(transitions, kind, stateToFind, e).value];
      currentState := actual.to;
      match actual.func {
        case Some(f) =>
          managed := f(e, managed);
        case None =>
      }
      r := Ok(());
    }

    /** The current state, read without side effects. */
    method GetCurrentState() returns (s: S)
      ensures s == currentState
    {
      s := currentState;
    }

    /** The managed data, read without side effects. */
    method GetManagedState() returns (m: M)
      ensures m == managed
    {
      m := managed;
    }
  }
}
