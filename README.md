# fsm_rs: a verified model of a generic finite-state machine

The model covers the engine in `src/fsm.rs`. A `FiniteStateMachine` holds three
things: a current state, a piece of caller-owned "managed" data, and a fixed table of
`Transition`s. Each transition has a source state, a destination state, an event
template and an optional trigger. `trigger_event` works in four steps:

1. It collects the table entries that leave the current state on an event of the
   same variant as the fired event. The payload is ignored.
2. It fails if it finds none, or more than one.
3. Otherwise it sets the current state to the entry's destination.
4. It then runs the entry's trigger, if there is one, on the actual fired event and
   the managed data.

Files:

- `fsm.dfy`, module `Fsm`, holds the engine:
  - the `Transition` and `Config` datatypes;
  - the two scans of the table as pure functions: `MatchIndices` is the filter/collect, and `FirstMatch` is the `filter().next()`;
  - `Fire`, a reference function giving the outcome of firing one event;
  - the class `FiniteStateMachine`, whose `TriggerEvent` updates its fields in place and is proved against `Fire`;
  - lemmas that characterise `Fire`.
- `fsm_scenarios.dfy`, module `FsmScenarios`, holds the machines of the source's test module. Each test is written twice: as lemmas about `Fire`, quantified over the managed data and payloads, and as methods that build the class and fire events. One scenario is extra, with no counterpart in the tests: `DuplicateSomeDataIsAmbiguous`, a table with two StateA -> StateB entries of the SomeData kind.

Rust's `std::mem::discriminant` is replaced by a caller-supplied function
`kind: E -> K`. The machine stores it next to its table. Two events of the same kind
match the same entries.

Where the code panics, the model returns an error and changes nothing:
- "Bad trigger in current state!" becomes `Err(NoMatchingTransition)`;
- "Ambiguous trigger" becomes `Err(AmbiguousTransition)`.

## Model

| member | source | states |
|---|---|---|
| `Fsm.NewTransition` | src/fsm.rs:11-20 | the new transition keeps the given source, destination and event template, and has no trigger |
| `Fsm.NewTriggeredTransition` | src/fsm.rs:22-31 | the new transition keeps the given source, destination and event template, and holds the given trigger |
| `Fsm.MatchIndices` | src/fsm.rs:56-57 | the first scan: it returns exactly the positions of the entries whose source is the current state and whose template has the fired event's kind, each once, in table order |
| `Fsm.FirstMatch` | src/fsm.rs:69-70 | the second scan: it returns the first matching position, with no match before it, or nothing when no entry matches |
| `Fsm.Matches` | src/fsm.rs:56-57 | definition: an entry matches when its source equals the current state and its template has the fired event's kind; the payloads are not compared |
| `Fsm.RunTrigger` | src/fsm.rs:73-76 | definition: with a trigger, the new managed data is the trigger applied to the fired event and the old data; without one, the data is unchanged |
| `Fsm.Fire` | src/fsm.rs:52-76 | reference outcome of one firing: NoMatchingTransition only when no entry matches; AmbiguousTransition only when two different entries match; success only with a unique matching entry, whose destination becomes the state and whose trigger produces the managed data |
| `Fsm.SingleMatchIsUnique` | src/fsm.rs:56-63 | when the first scan collects one entry, no other entry of the table matches |
| `Fsm.UnambiguousTableNeverAmbiguous` | src/fsm.rs:63-66 | in a table with at most one entry per (state, event kind), firing never fails with AmbiguousTransition |
| `Fsm.UniqueMatchIsFirst` | src/fsm.rs:56-70 | whenever the first scan finds a match, the second scan finds the first entry the first scan collected, so the `unwrap` on the success path cannot fail |
| `Fsm.NoMatchingTransitionIff` | src/fsm.rs:56-61 | firing fails with NoMatchingTransition if and only if no entry leaves the current state on the fired event's kind |
| `Fsm.AmbiguousTransitionIff` | src/fsm.rs:56-66 | firing fails with AmbiguousTransition if and only if two different entries match, in whichever order they stand in the table |
| `Fsm.FireOkIff` | src/fsm.rs:56-71 | firing succeeds if and only if exactly one entry matches |
| `Fsm.FiresUniqueMatch` | src/fsm.rs:68-76 | when entry i is the only match: the new state is its destination; with a trigger, the new managed data is the trigger applied to the actual fired event and the old data; without one, the managed data is unchanged |
| `Fsm.MatchIndicesIgnorePayload` | src/fsm.rs:56-57 | two fired events of the same kind select the same entries, whatever their payloads |
| `Fsm.FireIgnoresPayload` | src/fsm.rs:52-76 | two fired events of the same kind fail with the same error, or both succeed and reach the same state |
| `Fsm.FiniteStateMachine.constructor` | src/fsm.rs:43-50 | construction stores the start state, the managed data, the table and the kind function unchanged |
| `Fsm.FiniteStateMachine.TriggerEvent` | src/fsm.rs:52-78 | on success, the machine's state and managed data become what `Fire` gives for the old state and data, and it returns Ok; on failure, it returns `Fire`'s error and neither field changes; the table never changes |
| `Fsm.FiniteStateMachine.GetCurrentState` | src/fsm.rs:80-83 | returns the current state |
| `Fsm.FiniteStateMachine.GetManagedState` | src/fsm.rs:85-88 | returns the managed data |
| `FsmScenarios.AsI32` | src/fsm.rs:162 | the `u32` to `i32` cast keeps the value modulo 2^32, and keeps it exactly below 2^31 |
| `FsmScenarios.EvtKind` | src/fsm.rs:100 | definition: a payload-free `Evt` is its own kind |
| `FsmScenarios.MiniTable` | src/fsm.rs:106-110 | the three-entry table None -> Idle on Step, Idle -> Busy on Step, Busy -> Idle on ToIdle; no (state, kind) pair appears twice |
| `FsmScenarios.SetTen` | src/fsm.rs:155-157 | definition: the trigger `trig_fun`, which sets the managed data to 10 |
| `FsmScenarios.CopyPayload` | src/fsm.rs:159-164 | the trigger `trig_with_data`: for SomeData(i) the managed data becomes i as an i32 (equal to i modulo 2^32); for NoData it is unchanged |
| `FsmScenarios.TriggeredTable` | src/fsm.rs:166-174 | the table of two triggered entries StateA -> StateB on NoData and on SomeData(0); no (state, kind) pair appears twice |
| `FsmScenarios.MixedTable` | src/fsm.rs:180-183 | the table of an untriggered NoData entry and a triggered SomeData(0) entry, both StateA -> StateB; no (state, kind) pair appears twice |
| `FsmScenarios.KindOf` | src/fsm.rs:140-144 | the kind of a payload event is SomeDataKind exactly for SomeData events, whatever the payload |
| `FsmScenarios.StepFromNoneReachesIdle` | src/fsm.rs:104-110 | in the three-state table, Step from None reaches Idle and leaves any managed data unchanged |
| `FsmScenarios.ToIdleFromNoneFails` | src/fsm.rs:129-136 | in the three-state table, ToIdle from None fails with NoMatchingTransition |
| `FsmScenarios.CreateFsm` | src/fsm.rs:102-111 | the test machine starts in None with managed data 4 and the three-entry table |
| `FsmScenarios.CanTriggerTransition` | src/fsm.rs:120-127 | firing Step on the test machine succeeds, and the machine is then in Idle |
| `FsmScenarios.BadTransitionFails` | src/fsm.rs:129-136 | firing ToIdle on the test machine fails with NoMatchingTransition, and the machine stays in None with managed data 4 |
| `FsmScenarios.NoDataRunsTrigger` | src/fsm.rs:166-178 | firing NoData from StateA with both entries triggered reaches StateB with managed data 10, whatever the data was before |
| `FsmScenarios.SomeDataPassesPayload` | src/fsm.rs:180-188 | firing SomeData(n) from StateA matches the entry templated SomeData(0), reaches StateB, and stores n as an i32, for every n |
| `FsmScenarios.DuplicateSomeDataIsAmbiguous` | src/fsm.rs:63-66 | (extra scenario) two StateA -> StateB entries templated SomeData(p) and SomeData(q) make every SomeData(n) fail with AmbiguousTransition |
| `FsmScenarios.CallsTriggerIfSet` | src/fsm.rs:152-189 | on the two test machines, NoData leaves managed data 10, and SomeData(45) leaves managed data 45 |

## Left out

- Triggers are pure functions from the fired event and the managed data to new managed data. State that a Rust `FnMut` closure captures and carries between calls is not modelled.
- The order "state first, then trigger" (src/fsm.rs:71-75) is kept in `TriggerEvent`. It has no observable effect here, because a pure trigger cannot read the machine.
- `FsmError` carries no state or event kind, because the panics at src/fsm.rs:60 and :65 carry only a message.
- Panics are not modelled as process termination. They are the two error results of `Fire` and `TriggerEvent`, and no field is written on those paths.
- `Box<dyn ...>`, lifetimes, borrows and the Rust trait bounds (`PartialEq`, `Copy`, `Sized`) are not modelled. States and kinds are Dafny types with equality.
- `get_managed_state` returns a shared reference in Rust. Here it returns the value.
- Determinism needs no lemma: `Fire` is a function of the current state, the managed data, the event and the table.
- The tests at src/fsm.rs:113-118 only assert `true` and are left out. The test at src/fsm.rs:120-127 is covered by `CanTriggerTransition`.
