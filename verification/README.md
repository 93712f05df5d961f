# Transition records of a small state-machine library, in Dafny

This project models the transition-record layer of the `sml` state-machine
library (`include/boost/sml/front/transition.hpp`). That layer has three
parts:

- **Dependency inference** (`ignore`, `get_deps`). From a guard's or an
  action's parameter list it computes the types an injector must supply.
  Every parameter that denotes the event is dropped. Combinators (callables
  derived from `operator_base`) are searched operand by operand.
- **Shorthand normalisation**. Each authored row shape becomes the single
  canonical record `transition<state<S1>, state<S2>, event<E>, G, A>`. A row
  is written against a state `S2`, followed by one of: nothing but a
  destination (state to state, which always has a destination), an event,
  event[guard], event/action, event[guard]/action, [guard], /action or
  [guard]/action. Every shape but state to state may be written with or
  without a destination, except that a state + bare event without a
  destination is a builder step and not a record. A missing guard becomes
  `always`, a missing action `none` and a missing event `anonymous`. A row
  without a destination gets the `internal` marker, which `operator=`
  later replaces.
- **The canonical record**. It derives `is_internal`, `src_state`,
  `dst_state`, the `initial`/`history` flags and `deps`. It also defines
  `execute` in four specialisations: general, `always` guard, `none` action,
  and both. `execute` evaluates the guard. When the guard holds, it commits
  the state update and then calls the action.

C++ types become values of `Types.Ty`: a base name, cv-qualifiers and a
reference category. Guards and actions become values of
`Dependencies.Callable`. Compile-time specialisation is an explicit
`Record.Specialisation` tag. `execute` is a pure function. It returns
whether the record fired, the new current state, and a trace of the calls
it made: guard, state update and action. Its helpers are outside this
model. They arrive as the callbacks of `Execution.Env`:

- `call` on a guard is the verdict `holds`, except that `always` returns
  true without consulting it (`Execution.Call`); `call` on an action is recorded
  as a `CallAction` step of the trace;
- `aux::get_id` is `idOf`;
- `update_current_state` is `update`.

Modules: `Types`, `TypeList`, `Dependencies`, `Record`, `Execution`,
`Shorthand`, `Examples` and `Wrappers` (an `Option`).

Three facts about the code shape the model:

- Only `remove_reference` is applied before a parameter is compared with
  the event type (`transition.hpp` line 17), so a `const E&` parameter is
  kept as a dependency. `Examples.QualifiersAreKept` shows this.
- The `initial`/`history` flags are read from `state<S2>` (lines 226-227),
  and `S2` is the row's source (line 231). `Record.FlagsIgnoreDestination`
  and `Examples.DemoRow` show this.
- The `internal` marker fills the first state parameter `S1`, the
  destination slot; an internal record's source and destination are both
  `S2` (lines 229-230).

## Model

| member | source | states |
|---|---|---|
| Dependencies.Ignore | include/boost/sml/front/transition.hpp:15-19 | A type is in the filtered list iff it is a parameter whose reference-stripped type is not the event type; the list is never longer than the parameter list |
| Dependencies.IgnoreJoin | include/boost/sml/front/transition.hpp:15-19 | Filtering a joined list equals joining the filtered lists, so the kept parameters stay in their original order |
| Dependencies.IgnoreKeepsAll | include/boost/sml/front/transition.hpp:15-19 | A parameter list with no event parameter is returned whole |
| Dependencies.IgnoreIdempotent | include/boost/sml/front/transition.hpp:15-19 | Filtering an already filtered list changes nothing |
| Dependencies.Deps | include/boost/sml/front/transition.hpp:21-32 | A type is a dependency of a guard or action iff some leaf callable takes it as a parameter and it does not reference-strip to the event type |
| Dependencies.DepsAll | include/boost/sml/front/transition.hpp:29-32 | The joined dependency list of a combinator's operands holds exactly the operands' non-event parameter types |
| Dependencies.DepsIsFilteredParams | include/boost/sml/front/transition.hpp:21-32 | The recursive inference equals the event filter applied to all leaf parameter lists concatenated left to right |
| Dependencies.DepsAllIsFilteredParams | include/boost/sml/front/transition.hpp:29-32 | The same equality for a sequence of combinator operands |
| Dependencies.CombinatorDepsJoin | include/boost/sml/front/transition.hpp:29-32 | A combinator over operands `xs ++ ys` has the dependencies of `xs` followed by those of `ys` |
| Dependencies.EventNeverDependency | include/boost/sml/front/transition.hpp:15-24 | The event type itself is never in a callable's dependency list |
| Dependencies.SingletonsHaveNoDeps | include/boost/sml/front/transition.hpp:34-42 | `always` and `none` take no parameters and need nothing from the injector |
| Types.RemoveReference | include/boost/sml/front/transition.hpp:17 | `aux::remove_reference_t`: drops `&` and `&&` and keeps the base type and cv-qualifiers (no contract; used by `Dependencies.DenotesEvent`) |
| Dependencies.DenotesEvent | include/boost/sml/front/transition.hpp:17 | The `is_same<event_type_t<E>, remove_reference_t<Ts>>` test: a parameter denotes the event iff its reference-stripped type is the event type (no contract; used by every `Dependencies` contract) |
| Dependencies.Keep | include/boost/sml/front/transition.hpp:17-18 | The `conditional_t` of one parameter: the empty list when it denotes the event, the one-element list of the parameter otherwise (no contract; see `Dependencies.Ignore`) |
| Dependencies.Args | include/boost/sml/front/transition.hpp:23 | `args_t<T, E>` of a leaf: a callee's parameter list, and nothing for `always` and `none`, whose call operators take no parameters (lines 35, 40) (no contract; see `Dependencies.SingletonsHaveNoDeps`) |
| TypeList.Unique | include/boost/sml/front/transition.hpp:236 | The de-duplicated list has no duplicates and the same elements, and leaves a duplicate-free list unchanged |
| Record.Transition.Kind | include/boost/sml/front/transition.hpp:224-315 | Which of the four records C++ selects: `always` guard and `none` action, `always` guard only, `none` action only, or the general record (no contract). An explicitly written `/ none{}` reaches C++ as `zero_wrapper<none>` (line 51), for which C++ selects the general record while `Kind` gives `ActionFree` |
| Record.Transition.IsInternal | include/boost/sml/front/transition.hpp:229 | `is_internal`: the first state parameter is the `internal` marker (no contract; its properties are in `Record.SelfTransition`) |
| Record.Transition.SrcState | include/boost/sml/front/transition.hpp:231 | `src_state`: always `S2` (no contract; see `Record.SelfTransition`) |
| Record.Transition.DstState | include/boost/sml/front/transition.hpp:230-232 | `dst`/`dst_state`: `S2` when internal, `S1` otherwise (no contract; see `Record.SelfTransition`) |
| Record.Transition.Initial | include/boost/sml/front/transition.hpp:226 | `initial`, copied from `state<S2>` (no contract; see `Record.FlagsIgnoreDestination`) |
| Record.Transition.History | include/boost/sml/front/transition.hpp:227 | `history`, copied from `state<S2>` (no contract; see `Record.FlagsIgnoreDestination`) |
| Record.Transition.Deps | include/boost/sml/front/transition.hpp:236-326 | A record's `deps` has no duplicates, never contains the event type, and holds exactly the guard's and the action's dependencies |
| Record.DepsAgreeAcrossSpecialisations | include/boost/sml/front/transition.hpp:224-326 | The shortened `deps` of the `always`, `none` and `always`+`none` records equal the general unique join of guard and action dependencies |
| Record.SelfTransition | include/boost/sml/front/transition.hpp:229-232 | The destination equals the source iff the record is internal or names `S2` as `S1`; an internal record's destination is `S2`, otherwise it is `S1` |
| Record.FlagsIgnoreDestination | include/boost/sml/front/transition.hpp:226-227 | Replacing `S1` leaves `initial` and `history` unchanged; both are the flags of `S2` |
| Execution.Execute | include/boost/sml/front/transition.hpp:240-336 | Fires iff the guard is `always` or holds; when not fired, the state is unchanged and only the guard was called; when fired, the state is the update to the destination id with `is_internal`; the action is called iff fired and not `none`; calls occur guard, then update, then action, each at most once |
| Execution.Call | include/boost/sml/front/transition.hpp:242 | `call(g, ...)` on a guard: `always` returns true (line 35); any other guard gives the `holds` verdict of the environment (no contract; used by `Execution.ExecuteGeneral`) |
| Execution.ExecuteGeneral | include/boost/sml/front/transition.hpp:241-250 | The general `execute` applied to any record: call the guard, and if it holds update the state and call the action (no contract; the reference against which `Execution.SpecialisationsRefineGeneral` checks the other three) |
| Execution.SpecialisationsRefineGeneral | include/boost/sml/front/transition.hpp:240-336 | Each shortened `execute` gives the same verdict and state as the general one, and its trace is the general trace without the calls to `always` and `none` |
| Shorthand.EventPart.Guard | include/boost/sml/front/transition.hpp:179-208 | The guard of an event part, or `always` when none is written (no contract; `Shorthand.Normalize` is stated through it) |
| Shorthand.EventPart.Action | include/boost/sml/front/transition.hpp:145-208 | The action of an event part, or `none` when none is written (no contract; `Shorthand.Normalize` is stated through it) |
| Shorthand.SourceShape.Event | include/boost/sml/front/transition.hpp:64-208 | The event of a source shape, or `anonymous` when none is written (no contract; `Shorthand.Normalize` is stated through it) |
| Shorthand.SourceShape.Guard | include/boost/sml/front/transition.hpp:64-208 | The guard of a source shape, or `always` when none is written (no contract; `Shorthand.Normalize` is stated through it) |
| Shorthand.SourceShape.Action | include/boost/sml/front/transition.hpp:64-208 | The action of a source shape, or `none` when none is written (no contract; `Shorthand.Normalize` is stated through it) |
| Shorthand.EventPart.Slash | include/boost/sml/front/transition.hpp:47-52 | `operator/` on event[guard] keeps the event and guard, sets the action and always yields an event[guard]/action |
| Shorthand.SourceShape.Slash | include/boost/sml/front/transition.hpp:90-93 | `operator/` on state[guard] keeps the state and guard, sets the action, the event stays `anonymous`, and the result is always a state[guard]/action shape |
| Shorthand.Normalize | include/boost/sml/front/transition.hpp:64-222 | Every row except a bare state + event without a destination yields a record; it is internal iff no destination was written; it carries the written destination, the source state, and the written event, guard and action or their defaults (`anonymous`, `always`, `none`) |
| Shorthand.Assign | include/boost/sml/front/transition.hpp:71-206 | `operator=` gives the record of the shape with a destination; it replaces only the `internal` marker and keeps source, event, guard and action |
| Shorthand.UndirectedIsSelfTransition | include/boost/sml/front/transition.hpp:64-208 | A row without a destination, other than a state + bare event, normalises to a record whose source and destination are the row's state |
| Shorthand.NormalizeDependsOnlyOnDefaults | include/boost/sml/front/transition.hpp:138-222 | Two shapes that agree after defaulting normalise to the same record when both are given the same destination |
| Shorthand.UndirectedDependsOnlyOnDefaults | include/boost/sml/front/transition.hpp:64-208 | Two shapes without a destination that agree after defaulting normalise to the same record, unless one is a state + bare event, which has no record |
| Examples.DemoRow | msm.cpp:56 | `idle == s1 + event<e1> / action1` is a record from `s1` to `idle` with the `always` guard and no dependencies; it has the flags of `s1`, always fires, and updates before calling `action1` |
| Examples.DemoDeps | msm.cpp:25-34 | `guard1` depends on `int` only, `guard2` and `action1` on nothing, `action2` on `double` and `float&` in order |
| Examples.DemoCombinatorDeps | msm.cpp:57-58 | In the commented-out rows of the demonstration table, `guard1 && guard2` depends on `int`, and `(action1, action2)` on `double` and `float&` in order |
| Examples.QualifiersAreKept | include/boost/sml/front/transition.hpp:17 | An `e1&&` parameter is the event; a `const e1&` parameter is a dependency |

## Left out

- `update_current_state`, `call`, `aux::get_id`: their bodies are not part of this model. They are the opaque callbacks of `Execution.Env`.
- `Execution.Env`: its `update` sees only the current state, the destination id and `is_internal`. The `state<src_state>` and `state<dst_state>` tags that `update_current_state` also receives are not passed, so an update that depends on the source state cannot be expressed.
- `Execution.Execute`: guards and actions that throw are not modelled. Every outcome is a complete run, so there is no outcome for "update committed, then the action failed", although the update-before-action order means such a failure would leave the new state current.
- `args_t<T, E>`: a `Callee` carries the parameter list this helper yields for the record's event. Generic lambdas whose parameters depend on the event are not modelled separately.
- `event_type_t<E>`: treated as the identity on event types. Event types are reference-free (`Types.EventType`).
- `aux::unique_t`: `TypeList.Unique` keeps the last occurrence of each type. Of its four stated facts, no duplicates and the same elements are what the model relies on. The other two, that a duplicate-free list is left unchanged and the result is no longer than the input, hold of this definition and are assumed, not known, of `aux::unique_t`.
- `aux::zero_wrapper<T>` around an action: treated as the action itself.
- `Record.Transition.Kind`: an explicitly written `/ none{}` is `zero_wrapper<none>` in C++ and selects the general record; the model treats it as `none` and selects `ActionFree`. The only difference is a call to `none`, which does nothing and which `Execution.SpecialisationsRefineGeneral` erases.
- `transition<event<E>, G>` and `transition_eg<event<E>, G>`: both are `EventPart.OnGuard`. Only `transition_eg` appears after a state in the specialisations.
- The record's `SM`, `TDeps`, `TSubs` parameters: sub-machines (`subs`) and `explicit_states` are not modelled.
- The loop that tries several records for one event, candidate selection and any event queue or re-entrancy policy: they are not in the modelled file.
- Construction-time validation (undeclared states, a single initial state, resolvable dependencies): it lives outside the modelled file.
- Side effects inside user guards and actions: only the fact that they were called is recorded.
- `msm.cpp` printing, the dependency-injection container and `process_event`: I/O and wiring.
