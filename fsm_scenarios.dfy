/**
 The machines of the engine's own test module: a three-state machine driven by
 payload-free events, and a two-state machine whose events may carry a `u32`
 payload and whose managed data is an `i32`.
 */
module FsmScenarios {
  import F = Fsm

  newtype u32 = x: int | 0 <= x < 0x1_0000_0000
  newtype i32 = x: int | -0x8000_0000 <= x < 0x8000_0000

  /** The `as i32` cast of a `u32`: the same 32 bits read in two's complement. */
  function AsI32(x: u32): (r: i32)
    ensures (r as int) % 0x1_0000_0000 == x as int
    ensures x < 0x8000_0000 ==> r as int == x as int
  {
    if x < 0x8000_0000 then x as int as i32 else (x as int - 0x1_0000_0000) as i32
  }

  // ---------------------------------------------------------------------------
  // A machine with payload-free events

  datatype MiniFsm = None | Idle | Busy

  datatype Evt = Step | ToIdle

  /** Events without payload are their own kind. */
  function EvtKind(e: Evt): (k: Evt)
  {
    e
  }

  /** None -> Idle and Idle -> Busy on Step, Busy -> Idle on ToIdle. */
  function MiniTable(): (table: seq<F.Transition<MiniFsm, Evt, i32>>)
    ensures F.Unambiguous(table, EvtKind)
  {
    [ F.NewTransition(None, Idle, Step),
      F.NewTransition(Idle, Busy, Step),
      F.NewTransition(Busy, Idle, ToIdle) ]
  }

  /** From None, Step reaches Idle and leaves the managed data alone. */
  lemma StepFromNoneReachesIdle(m: i32)
    ensures F.Fire(MiniTable(), EvtKind, F.Config(None, m), Step) == F.Ok(F.Config(Idle, m))
  {
    F.FiresUniqueMatch(MiniTable(), EvtKind, F.Config(None, m), Step, 0);
  }

  /** From None, ToIdle is not allowed, whatever the managed data. */
  lemma ToIdleFromNoneFails(m: i32)
    ensures F.Fire(MiniTable(), EvtKind, F.Config(None, m), ToIdle) == F.Err(F.NoMatchingTransition)
  {
    F.NoMatchingTransitionIff(MiniTable(), EvtKind, F.Config(None, m), ToIdle);
  }

  /** The three-state machine, starting in None with managed data 4. */
  method CreateFsm() returns (fsm: F.FiniteStateMachine<MiniFsm, Evt, Evt, i32>)
    ensures fresh(fsm)
    ensures fsm.Snapshot() == F.Config(None, 4)
    ensures fsm.transitions == MiniTable() && fsm.kind == EvtKind
  {
    fsm := new F.FiniteStateMachine(None, 4, MiniTable(), EvtKind);
  }

  /** Firing Step on a fresh three-state machine succeeds and moves it to Idle. */
  method CanTriggerTransition() returns (r: F.Result<(), F.FsmError>, s: MiniFsm)
    ensures r == F.Ok(()) && s == Idle
  {
    var fsm := CreateFsm();
    StepFromNoneReachesIdle(4);
    r := fsm.TriggerEvent(Step);
    s := fsm.GetCurrentState();
  }

  /** Firing ToIdle on a fresh three-state machine fails and changes nothing. */
  method BadTransitionFails() returns (r: F.Result<(), F.FsmError>, s: MiniFsm, m: i32)
    ensures r == F.Err(F.NoMatchingTransition)
    ensures s == None && m == 4
  {
    var fsm := CreateFsm();
    ToIdleFromNoneFails(4);
    r := fsm.TriggerEvent(ToIdle);
    s := fsm.GetCurrentState();
    m := fsm.GetManagedState();
  }

  // ---------------------------------------------------------------------------
  // A machine whose events may carry a payload

  datatype PayloadEvent = NoData | SomeData(data: u32)

  datatype PayloadStates = StateA | StateB

  /** The variant of a payload event, its payload dropped. */
  datatype PayloadKind = NoDataKind | SomeDataKind

  function KindOf(e: PayloadEvent): (k: PayloadKind)
    ensures k == SomeDataKind <==> e.SomeData?
  {
    match e
    case NoData => NoDataKind
    case SomeData(_) => SomeDataKind
  }

  /** A trigger that overwrites the managed data with 10. */
  function SetTen(e: PayloadEvent, m: i32): (r: i32)
  {
    10
  }

  /** A trigger that stores the payload of a SomeData event as an `i32`. */
  function CopyPayload(e: PayloadEvent, m: i32): (r: i32)
    ensures e.SomeData? ==> (r as int) % 0x1_0000_0000 == e.data as int
    ensures e.NoData? ==> r == m
  {
    if e.SomeData? then AsI32(e.data) else m
  }

  /** Both entries leave StateA for StateB, each with a trigger. */
  function TriggeredTable(): (table: seq<F.Transition<PayloadStates, PayloadEvent, i32>>)
    ensures F.Unambiguous(table, KindOf)
  {
    [ F.NewTriggeredTransition(StateA, StateB, NoData, SetTen),
      F.NewTriggeredTransition(StateA, StateB, SomeData(0), CopyPayload) ]
  }

  /** As TriggeredTable, but the NoData entry has no trigger. */
  function MixedTable(): (table: seq<F.Transition<PayloadStates, PayloadEvent, i32>>)
    ensures F.Unambiguous(table, KindOf)
  {
    [ F.NewTransition(StateA, StateB, NoData),
      F.NewTriggeredTransition(StateA, StateB, SomeData(0), CopyPayload) ]
  }

  /** NoData selects the NoData entry alone, and its trigger sets the managed data to 10. */
  lemma NoDataRunsTrigger(m: i32)
    ensures F.Fire(TriggeredTable(), KindOf, F.Config(StateA, m), NoData) == F.Ok(F.Config(StateB, 10))
  {
    F.FiresUniqueMatch(TriggeredTable(), KindOf, F.Config(StateA, m), NoData, 0);
  }

  /**
   Any SomeData event matches the entry templated with SomeData(0), and the trigger
   sees the fired payload, not the template's.
   */
  lemma SomeDataPassesPayload(m: i32, n: u32)
    ensures F.Fire(MixedTable(), KindOf, F.Config(StateA, m), SomeData(n)) == F.Ok(F.Config(StateB, AsI32(n)))
  {
    F.FiresUniqueMatch(MixedTable(), KindOf, F.Config(StateA, m), SomeData(n), 1);
  }

  /** Two entries templated with SomeData for the same state make every SomeData event ambiguous. */
  lemma DuplicateSomeDataIsAmbiguous(m: i32, n: u32, p: u32, q: u32)
    ensures var table := [ F.NewTransition(StateA, StateB, SomeData(p)),
                           F.NewTriggeredTransition(StateA, StateB, SomeData(q), CopyPayload) ];
            F.Fire(table, KindOf, F.Config(StateA, m), SomeData(n)) == F.Err(F.AmbiguousTransition)
  {
    var table := [ F.NewTransition(StateA, StateB, SomeData(p)),
                   F.NewTriggeredTransition(StateA, StateB, SomeData(q), CopyPayload) ];
    F.AmbiguousTransitionIff(table, KindOf, F.Config(StateA, m), SomeData(n));
    assert F.Matches(table[0], KindOf, StateA, SomeData(n)) && F.Matches(table[1], KindOf, StateA, SomeData(n));
  }

  /**
   The test with triggers: NoData on the first table leaves 10 in the managed data;
   SomeData(45) on the second table leaves 45 there.
   */
  method CallsTriggerIfSet() returns (first: i32, second: i32)
    ensures first == 10 && second == 45
  {
    var fsm := new F.FiniteStateMachine(StateA, 4, TriggeredTable(), KindOf);
    NoDataRunsTrigger(4);
    var _ := fsm.TriggerEvent(NoData);
    first := fsm.GetManagedState();

    var fsm2 := new F.FiniteStateMachine(StateA, 21, MixedTable(), KindOf);
    SomeDataPassesPayload(21, 45);
    var _ := fsm2.TriggerEvent(SomeData(45));
    second := fsm2.GetManagedState();
  }
}
