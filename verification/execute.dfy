/**
 `execute` of the four canonical records: evaluate the guard, and when it
 holds commit the state update and then call the action. The helpers it
 calls (`call`, `update_current_state`, `aux::get_id`) are not part of this
 model and arrive as the opaque callbacks of an `Env`; every call the
 record makes is recorded as a `Step` of the returned trace.
 */
module Execution {

  import opened Types
  import opened Dependencies
  import opened Record

  /** The machine's `state_t` current-state cell. */
  type StateId = int

  /** One observable call made by `execute`. */
  datatype Step =
    | EvalGuard(guard: Callable)
    | Update(dstId: int, internal: bool)
    | CallAction(action: Callable)

  /**
   The collaborators `execute` reaches through opaque helpers: what
   `call(g, event, ...)` returns for a guard under the current event and
   dependencies, the id `aux::get_id` gives a state, and the new current
   state `update_current_state` leaves for a destination id and `is_internal`.
   */
  datatype Env = Env(holds: Callable -> bool, idOf: State -> int, update: (StateId, int, bool) -> StateId)

  /** What `execute` returns, the current state after it, and the calls it made. */
  datatype Outcome = Outcome(fired: bool, state: StateId, trace: seq<Step>)

  /** The one state update a record can make. */
  function UpdateStep(t: Transition, env: Env): Step {
    Update(env.idOf(t.DstState()), t.IsInternal())
  }

  /** Position of a step in the guard, update, action protocol. */
  function Phase(s: Step): nat {
    match s
    case EvalGuard(_) => 0
    case Update(_, _) => 1
    case CallAction(_) => 2
  }

  /**
   `execute` of the specialisation `t.Kind()` selects. The `always`
   specialisations never call the guard; the `none` specialisations never
   call the action.
   */
  function Execute(t: Transition, current: StateId, env: Env): (o: Outcome)
    ensures o.fired <==> t.guard == AlwaysGuard || env.holds(t.guard)
    ensures !o.fired ==> o.state == current && o.trace == [EvalGuard(t.guard)]
    ensures o.fired ==> o.state == env.update(current, env.idOf(t.DstState()), t.IsInternal())
    ensures UpdateStep(t, env) in o.trace <==> o.fired
    ensures CallAction(t.action) in o.trace <==> o.fired && t.action != NoneAction
    ensures EvalGuard(t.guard) in o.trace <==> t.guard != AlwaysGuard
    ensures forall s :: s in o.trace ==> s == EvalGuard(t.guard) || s == UpdateStep(t, env) || s == CallAction(t.action)
    ensures forall i, j :: 0 <= i < j < |o.trace| ==> Phase(o.trace[i]) < Phase(o.trace[j])
  {
    var up := UpdateStep(t, env);
    var committed := env.update(current, up.dstId, up.internal);
    match t.Kind()
    case General =>
      if env.holds(t.guard) then Outcome(true, committed, [EvalGuard(t.guard), up, CallAction(t.action)])
      else Outcome(false, current, [EvalGuard(t.guard)])
    case AlwaysGuarded =>
      Outcome(true, committed, [up, CallAction(t.action)])
    case ActionFree =>
      if env.holds(t.guard) then Outcome(true, committed, [EvalGuard(t.guard), up])
      else Outcome(false, current, [EvalGuard(t.guard)])
    case AlwaysActionFree =>
      Outcome(true, committed, [up])
  }

  /** `call` on a guard: `always` returns true without consulting anything. */
  function Call(g: Callable, env: Env): bool {
    g == AlwaysGuard || env.holds(g)
  }

  /**
   The general `execute` applied to any record, treating `always` and `none`
   as ordinary callables: it calls the guard, and if it holds, updates the
   state and calls the action.
   */
  function ExecuteGeneral(t: Transition, current: StateId, env: Env): Outcome {
    if Call(t.guard, env) then
      Outcome(true, env.update(current, env.idOf(t.DstState()), t.IsInternal()),
              [EvalGuard(t.guard), UpdateStep(t, env), CallAction(t.action)])
    else Outcome(false, current, [EvalGuard(t.guard)])
  }

  /** Drops the calls to `always` and `none`, which have no observable effect. */
  function Erase(tr: seq<Step>): (r: seq<Step>)
    ensures |r| <= |tr|
    ensures forall s :: s in r <==> s in tr && s != EvalGuard(AlwaysGuard) && s != CallAction(NoneAction)
  {
    if tr == [] then []
    else if tr[0] == EvalGuard(AlwaysGuard) || tr[0] == CallAction(NoneAction) then Erase(tr[1..])
    else [tr[0]] + Erase(tr[1..])
  }

  /**
   The three shortened specialisations are the general one with the calls
   to `always` and `none` left out: same verdict, same new state, and the
   same trace once those calls are erased.
   */
  lemma SpecialisationsRefineGeneral(t: Transition, current: StateId, env: Env)
    ensures Execute(t, current, env).fired == ExecuteGeneral(t, current, env).fired
    ensures Execute(t, current, env).state == ExecuteGeneral(t, current, env).state
    ensures Execute(t, current, env).trace == Erase(ExecuteGeneral(t, current, env).trace)
  {
    var g := ExecuteGeneral(t, current, env);
    var up := UpdateStep(t, env);
    if Call(t.guard, env) {
      var act := [CallAction(t.action)];
      assert act[1..] == [];
      assert Erase(act) == if t.action == NoneAction then [] else act;
      assert [up, CallAction(t.action)][1..] == act;
      assert Erase([up, CallAction(t.action)]) == [up] + Erase(act);
      assert g.trace[1..] == [up, CallAction(t.action)];
    } else {
      assert g.trace[1..] == [];
    }
  }
}
