# statemachine — a Dafny model of the scenario engine

The repository is a small finite-state "scenario" engine written in C++. A
scenario owns named states, a transition table keyed by (state, custom event)
and one current-state pointer. Each state has `init`, `update` and `exit`
hooks that return or emit an event. Three iterations of the engine exist side
by side, and all three are modelled here:

- `libstate/src/libstate.hpp`, the templated engine (`events.dfy`,
  `libstate.dfy`). Events are values: a kind, an optional custom tag, a sender
  and a payload map. Equality ignores the payload. States are values: a name
  and the derived class they were built as. The scenario is a class over the
  registry map `states`, the table `transfers` and the current state `cur`.
  `transfer` and `Scenario::update` are empty in this iteration, so no
  table-driven dispatch is modelled.
- `src/main.cpp`, the early engine and its worked example (`early_engine.dfy`).
  States are objects whose switcher callback is set in place. The scenario
  keeps a list of them and a current position. Every hook it calls is
  appended to a `trace`, so orderings such as "`exit` before `init`" can be
  stated. The pure functions `AddStateSpec`, `SetStartSpec`, `SwitcherSpec`,
  `UpdateSpec` and `DestroySpec` specify the class's methods. The lemmas prove
  that the example flips between "NewLogin" and "TryAgain" on every `update`.
- `libstate/src/libstate.cpp`, the non-templated implementation
  (`libstate_impl.dfy`). It has the same registry and lifecycle, plus a
  requester callback next to the switcher. Both are forwarded only when set.
  Its `Event(type, state, data)` constructor is the datatype constructor
  `LibStateImpl.Event`, which stores the three fields as given.
- `examples/UpdatePassword/updatePassword.cpp`, the password-update scenario
  (`update_password.dfy`). It has four `update` decision rules over the input
  map, and an `init` that fills the templated scenario's registry and table.

Shared notions are in `wrappers.dfy` (`Option`) and `lifecycle.dfy` (the
parameter map, the hook names, first-match lookup, name uniqueness).

Where the intended design and the code differ, the model follows the code:

- `addTransfer` does not reject unknown or null states. It overwrites silently
  and always returns true.
- Custom tags are accepted on every event kind. The example sends tagged
  `Request` events.
- The templated `setStartState` never calls `init`. The two older engines do.

## Model

| member | source | states |
|---|---|---|
| `Events.Untagged` | libstate/src/libstate.hpp:44-51 | the tag-less constructor stores kind, sender and payload and leaves the custom tag empty |
| `Events.Tagged` | libstate/src/libstate.hpp:53-61 | the tagged constructor stores kind, sender and payload and sets the custom tag |
| `Events.WrappersPinKind` | libstate/src/libstate.hpp:72-163 | each of the five wrappers, in both forms, yields its own kind; the tag-less form has no tag and the tagged form has the given one |
| `Events.Equal` | libstate/src/libstate.hpp:62-68 | defined only when both senders are non-null (their names are read through both pointers); two events are `==` exactly when they differ in nothing but the payload |
| `Events.EqualIgnoresPayload` | libstate/src/libstate.hpp:62-68 | replacing an event's payload never changes the outcome of `==` |
| `Events.EqualIsEquivalence` | libstate/src/libstate.hpp:62-68 | `==` is reflexive, symmetric and transitive on events with senders |
| `LibState.DefaultHook` | libstate/src/libstate.hpp:188-208 | the default `init`, `update` and `exit` all return a tag-less None event sent by the state itself, with no data |
| `LibState.Register` | libstate/src/libstate.hpp:284-300 | `addState` as intended: a handle comes back exactly when the name was free, and then it is the new state; the name is always filed afterwards, earlier entries are never replaced, and a fresh name files the new state |
| `LibState.RegisterAsWritten` | libstate/src/libstate.hpp:284-300 | as written, `addState` files the state exactly as intended, but the handle it returns is null on success too |
| `LibState.RegisterAsWrittenLosesHandle` | libstate/src/libstate.hpp:297-299 | a fresh state added to an empty registry is filed, yet the returned handle is null where the intended one is the state |
| `LibState.RegisterDuplicate` | libstate/src/libstate.hpp:290-295 | a state whose name is taken leaves the registry unchanged and yields a null handle |
| `LibState.RegisterFresh` | libstate/src/libstate.hpp:297-299 | a fresh name adds exactly one entry, under that name; every other entry is unchanged, the registry stays filed by name and the handle finds the new state |
| `LibState.StartAfter` | libstate/src/libstate.hpp:242-252 | a registered name becomes current; an unknown name leaves the current state as it was |
| `LibState.Scenario.constructor` | libstate/src/libstate.hpp:333-336 | a new scenario has no states, no transfers and no current state |
| `LibState.Scenario.SetStartState` | libstate/src/libstate.hpp:242-252 | sets the current state by name lookup, changes nothing else (no `init` call) and keeps the registry invariant |
| `LibState.Scenario.SetStartStateOf` | libstate/src/libstate.hpp:254-266 | a null state is ignored; otherwise it has the same effect as the name overload on the state's name |
| `LibState.Scenario.AddState` | libstate/src/libstate.hpp:284-300 | the registry and handle are those of `Register`: duplicates refused, fresh names filed; transfers and current state untouched |
| `LibState.Scenario.AddTransfer` | libstate/src/libstate.hpp:310-322 | the table maps (first, event) to second, overwriting any earlier target; the result is always true |
| `LibState.AddTransferLookup` | libstate/src/libstate.hpp:316-317 | after the insert, the new key gives the new target and every other key keeps its presence and target |
| `LibState.Scenario.GetState` | libstate/src/libstate.hpp:324-330 | returns the registered state, which has that name, exactly when the name is registered, and null otherwise; it changes nothing |
| `LibState.Scenario.Init` | libstate/src/libstate.hpp:344-348 | the base `init` answers a None event with no sender, tag or data, and changes nothing |
| `LibState.Scenario.Update` | libstate/src/libstate.hpp:352-363 | the templated `update` answers a None event with no sender, and changes nothing; its dispatch is commented out |
| `Lifecycle.FirstIndex` | src/main.cpp:85-93 | the first position holding the name, with no earlier match; none exactly when the name is absent |
| `Lifecycle.FirstIndexOfDistinct` | libstate/src/libstate.cpp:47-52 | in a list without duplicate names, looking up a state's name finds that state |
| `Lifecycle.AppendFreshKeepsDistinct` | src/main.cpp:114-123 | appending a name that is not yet listed keeps the names unique |
| `EarlyEngine.AddStateSpec` | src/main.cpp:114-123 | a taken name leaves the scenario unchanged; a fresh one is appended last with its switcher set; names stay unique |
| `EarlyEngine.SetStartSpec` | src/main.cpp:95-104 | a known name becomes current and gets exactly one `init` call; an unknown name changes nothing |
| `EarlyEngine.SwitcherSpec` | src/main.cpp:195-223 | the switcher keeps the list and leaves a valid current position |
| `EarlyEngine.SwitcherExitsBeforeInit` | src/main.cpp:195-223 | `exit` on the sender comes first, then at most one `init`, on the state named after the event type; an unknown target leaves the current state unchanged |
| `EarlyEngine.UpdateSpec` | src/main.cpp:125-131 | with no current state `update` is a no-op; it never changes the list |
| `EarlyEngine.UpdateCallsCurrentState` | src/main.cpp:125-131 | the first hook `update` calls is `update` on the current state, with the caller's map |
| `EarlyEngine.DestroySpec` | src/main.cpp:108-112 | destruction calls `exit` once on the current state if there is one, and otherwise calls nothing |
| `EarlyEngine.ExampleNames` | src/main.cpp:187-191 | the example registers "NewLogin" then "TryAgain", and lookup finds each at its position |
| `EarlyEngine.ExampleUpdateFlips` | src/main.cpp:138-223 | one `update` of the example calls `update` and `exit` on the current state and `init` on the other, which becomes current |
| `EarlyEngine.ExampleAlternates` | src/main.cpp:138-223 | for any inputs, every `update` flips the current state and adds exactly three hook calls |
| `EarlyEngine.ExampleNewLoginAfterEvenUpdates` | src/main.cpp:187-223 | from the example's start, "NewLogin" is current exactly after an even number of updates |
| `EarlyEngine.State.Plain` | src/main.cpp:32-33 | a base state has the given name and no switcher |
| `EarlyEngine.State.NewLogin` | src/main.cpp:164-165 | `StateNewLogin` is named "NewLogin" and has no switcher yet |
| `EarlyEngine.State.TryAgain` | src/main.cpp:141-142 | `StateTryAgain` is named "TryAgain" and has no switcher yet |
| `EarlyEngine.State.SetSwitcher` | src/main.cpp:55 | sets the switcher field |
| `EarlyEngine.Scenario.constructor` | src/main.cpp:107 | a new scenario has no states, no current state and no calls |
| `EarlyEngine.Scenario.Example` | src/main.cpp:187-192 | `Scen()` ends with both states registered and "NewLogin" current and initialised once |
| `EarlyEngine.Scenario.FindState` | src/main.cpp:85-93 | the scan returns the first position with that name, or none |
| `EarlyEngine.Scenario.AddState` | src/main.cpp:114-123 | the new list is that of `AddStateSpec`; the switcher is set only on a state that was appended |
| `EarlyEngine.Scenario.SetStartState` | src/main.cpp:95-104 | the new scenario is that of `SetStartSpec` |
| `EarlyEngine.Scenario.Update` | src/main.cpp:125-131 | the new scenario is that of `UpdateSpec`, including the switch the example states request |
| `EarlyEngine.Scenario.NeedToSwitch` | src/main.cpp:63-68 | runs the switcher only when the sender's switcher is set; otherwise nothing changes |
| `EarlyEngine.Scenario.Switcher` | src/main.cpp:195-223 | the new scenario is that of `SwitcherSpec` |
| `EarlyEngine.Scenario.Destroy` | src/main.cpp:108-112 | the new scenario is that of `DestroySpec` |
| `LibStateImpl.State.constructor` | libstate/src/libstate.cpp:8-13 | a new state has its name and neither callback |
| `LibStateImpl.State.SetSwitcher` | libstate/src/libstate.cpp:19-22 | sets the switcher and leaves the requester |
| `LibStateImpl.State.SetRequester` | libstate/src/libstate.cpp:24-27 | sets the requester and leaves the switcher |
| `LibStateImpl.State.NeedToSwitch` | libstate/src/libstate.cpp:34-39 | with a switcher set, the next call that scenario sees is its switcher with the event, and what came before is kept; a valid switcher stays valid |
| `LibStateImpl.State.Request` | libstate/src/libstate.cpp:40-45 | with a requester set, that scenario's `request` runs once with the map; otherwise nothing changes |
| `LibStateImpl.Scenario.constructor` | libstate/src/libstate.cpp:68-72 | a new scenario has no states, no current state and no requester |
| `LibStateImpl.Scenario.FindState` | libstate/src/libstate.cpp:47-52 | the scan returns the first position with that name, or none |
| `LibStateImpl.Scenario.SetStartState` | libstate/src/libstate.cpp:54-66 | a known name becomes current and gets one `init` call; an unknown name changes nothing |
| `LibStateImpl.Scenario.Destroy` | libstate/src/libstate.cpp:74-78 | `exit` is called once on the current state if one is set, and nothing is called otherwise |
| `LibStateImpl.Scenario.Request` | libstate/src/libstate.cpp:80-85 | the sink receives the map once when it is set; otherwise nothing happens |
| `LibStateImpl.Scenario.Switcher` | libstate/src/libstate.cpp:95 | the scenario's switcher is invoked with the event; the earlier calls are kept and this one comes next; it keeps the scenario valid |
| `LibStateImpl.Scenario.AddState` | libstate/src/libstate.cpp:87-98 | a listed name leaves list and state untouched; otherwise the state gets this scenario as switcher and requester and is appended; names stay unique |
| `LibStateImpl.Scenario.Update` | libstate/src/libstate.cpp:100-107 | no current state: nothing happens at all; otherwise the next call is `update` on the state that was current, with the caller's map; the scenario stays valid |
| `LibStateImpl.RegisteredStateForwards` | libstate/src/libstate.cpp:95-96 | once registered, a state has the scenario as switcher and requester; its `needToSwitch` reaches the scenario's switcher next, and when a sink is set its `request` is the last call the sink sees; the scenario stays valid |
| `UpdatePassword.RequestOldPasswordUpdate` | examples/UpdatePassword/updatePassword.cpp:44-62 | Switch with GotPassword, carrying the input map, exactly when "password" is present and non-empty; otherwise Request with PasswordIsEmpty and no data |
| `UpdatePassword.CheckPasswordUpdate` | examples/UpdatePassword/updatePassword.cpp:71-95 | always a Switch with no data: PasswordIsCorrect exactly when "password" is present and equals "123", else PasswordIsIncorrect |
| `UpdatePassword.RequestNewPasswordUpdate` | examples/UpdatePassword/updatePassword.cpp:104-120 | the same present-and-non-empty rule as RequestOldPassword, sent by RequestNewPassword |
| `UpdatePassword.SavePasswordUpdate` | examples/UpdatePassword/updatePassword.cpp:129-147 | always a Request: PasswordIsCorrect with the map exactly when the password is non-empty, else PasswordIsEmpty with no data |
| `UpdatePassword.RegistryShape` | examples/UpdatePassword/updatePassword.cpp:160-163 | the four states have distinct names, so all four are registered under their own names |
| `UpdatePassword.TableKeys` | examples/UpdatePassword/updatePassword.cpp:167-173 | the table's keys are exactly the seven (state, event) pairs `init` adds |
| `UpdatePassword.TableSize` | examples/UpdatePassword/updatePassword.cpp:167-173 | the table has seven entries: no insert overwrites another |
| `UpdatePassword.TableShape` | examples/UpdatePassword/updatePassword.cpp:167-173 | every entry joins registered states; TryAgain entries are exactly the self-loops |
| `UpdatePassword.SwitchesAreRouted` | examples/UpdatePassword/updatePassword.cpp:44-173 | every Switch an `update` can return has an entry for (its state, its tag) in the table |
| `UpdatePassword.Init` | examples/UpdatePassword/updatePassword.cpp:154-181 | on a new scenario: the four states registered, the seven-entry table, RequestOldPassword current, and a None event with no sender, no tag and no data answered |

## Findings

| source | as written | input that shows it | evidently intended | confidence | as-written member | corrected member |
|---|---|---|---|---|---|---|
| libstate/src/libstate.hpp:297-299 | `m_states[...] = std::move(state)` empties `state`; the next line calls `state->getName()` on it and the function returns `state.get()`, which is null | a state with a fresh name, e.g. `addState<States::CheckPassword>()` on a new scenario | return the handle of the state just registered, as `UpdatePassword::init` assumes when it passes the handles to `addTransfer` and `setStartState` | high; not executed | `LibState.RegisterAsWritten`, `LibState.RegisterAsWrittenLosesHandle` | `LibState.Register`, `LibState.RegisterFresh` |

`LibState.Scenario.AddState` and `UpdatePassword.Init` use the corrected
registration (`LibState.Register`).

## Left out

- Console output (every `std::cout` line and `printMap`): it is diagnostics only.
- The `main()` drivers of `src/main.cpp` and `updatePassword.cpp`: they are harnesses. The example's alternation is proved for any sequence of inputs instead.
- A table-driven Switch, TryAgain and Finish dispatch for the templated engine: `transfer` and `Scenario::update` are left empty in the source. So the `up.update(...)` calls of the password example change nothing, and no routing beyond `UpdatePassword.SwitchesAreRouted` is claimed.
- Memory ownership (`unique_ptr`, `shared_ptr`) and pointer identity. In the templated engine a state is known by its name, so a state object that is not registered but has a registered name cannot be told apart from the registered one. In the two older engines a state is known by its list position.
- The null dereference in the log line of `addState` (libstate/src/libstate.hpp:298) and in `addTransfer`'s log line (libstate/src/libstate.hpp:318-320) when a handle is null: undefined behaviour is not modelled, and `addTransfer` takes non-null states.
- LibState.Scenario.AddState: returns the handle of the registered state instead of the null the source returns (see Findings).
- Virtual dispatch: each set of state classes is a closed datatype (`EarlyEngine.Kind`, `UpdatePassword.Kind`, the type parameter `K` of the templated engine).
- EarlyEngine.Scenario.NeedToSwitch: a state's switcher is a flag bound to the scenario that registered it. A `std::function` from elsewhere, or a state registered in two scenarios, is not modelled. Neither is the `default:` branch of `Scen::switcher`, which only logs an event type outside the enumeration.
- LibStateImpl.Scenario.Switcher: only the invocation is promised; what a subclass's switcher then does to the current state, the list or the trace is left open, so `LibStateImpl.State.NeedToSwitch` and `LibStateImpl.RegisteredStateForwards` promise no frame beyond the call either. What is required of every subclass switcher, and promised here, is that it keeps the scenario valid: the current state stays among the registered states and their names stay unique, as the early engine's switcher does when it only ever selects a listed state.
- LibStateImpl.Scenario.Update: with a current state, only the `update` call itself is promised; a state's `update` may call `needToSwitch` or `request`, whose effects go through the subclass's switcher and are left open.
- LibStateImpl: the header this file was written against is not part of this model. So the event type is a type parameter, only the invocation of the subclass's switcher is recorded, and a state's own hook bodies are not modelled beyond their invocation. The scenario's own requester sink is a public flag, since that header decides how it is set.
- UpdatePassword.Init: requires a scenario with no states and no transfers. On a second call `addState` refuses every state and the source would pass null handles to `addTransfer`. It also runs on the corrected `addState` (`LibState.Register`): as written, line 298 of libstate/src/libstate.hpp dereferences a moved-from pointer on the very first registration, and every handle passed on to `addTransfer` and `setStartState` would be null.
- Whether `libstate.cpp` compiles against the templated header: it is a build concern.
