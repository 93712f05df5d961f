/**
 The authored shapes of a transition row and their normalisation into the
 canonical record. A row is written against a state `S2` (its source),
 optionally with an event, a guard and an action, and optionally with an
 explicit destination `S1`. Missing pieces default to `event<anonymous>`,
 `always`, `none` and the `internal` marker.
 */
module Shorthand {

  import opened Wrappers
  import opened Types
  import opened Dependencies
  import opened Record

  /**
   What follows `state +`. `OnGuard` stands for both event[guard] holders
   (`transition<event<E>, G>` and `transition_eg<event<E>, G>`), which carry
   the same fields and the same `operator/`.
   */
  datatype EventPart =
    | On(e: EventType)
    | OnGuard(e: EventType, g: Callable)
    | OnAction(e: EventType, a: Callable)
    | OnGuardAction(e: EventType, g: Callable, a: Callable)
  {
    /** The guard written, or `always`. */
    function Guard(): Callable {
      match this
      case OnGuard(_, g) => g
      case OnGuardAction(_, g, _) => g
      case _ => AlwaysGuard
    }

    /** The action written, or `none`. */
    function Action(): Callable {
      match this
      case OnAction(_, a) => a
      case OnGuardAction(_, _, a) => a
      case _ => NoneAction
    }

    /** `operator/` on an event[guard]: attaches the action and keeps event and guard. */
    function Slash(a: Callable): (r: EventPart)
      requires OnGuard?
      ensures r.e == e && r.Guard() == Guard() && r.Action() == a
      ensures r.OnGuardAction?
    {
      OnGuardAction(e, g, a)
    }
  }

  /** The source side of a row: the state it is written against and what follows it. */
  datatype SourceShape =
    | StateGuardAction(s: State, g: Callable, a: Callable)
    | StateGuard(s: State, g: Callable)
    | StateAction(s: State, a: Callable)
    | StateEvent(s: State, ev: EventPart)
  {
    /** The event written, or `anonymous`. */
    function Event(): EventType {
      match this
      case StateEvent(_, ev) => ev.e
      case _ => Anonymous
    }

    /** The guard written, or `always`. */
    function Guard(): Callable {
      match this
      case StateGuardAction(_, g, _) => g
      case StateGuard(_, g) => g
      case StateAction(_, _) => AlwaysGuard
      case StateEvent(_, ev) => ev.Guard()
    }

    /** The action written, or `none`. */
    function Action(): Callable {
      match this
      case StateGuardAction(_, _, a) => a
      case StateGuard(_, _) => NoneAction
      case StateAction(_, a) => a
      case StateEvent(_, ev) => ev.Action()
    }

    /** `operator/` on `transition_sg`: attaches the action, keeping state and guard. */
    function Slash(a: Callable): (r: SourceShape)
      requires StateGuard?
      ensures r.s == s && r.Event() == Event() == Anonymous
      ensures r.Guard() == Guard() && r.Action() == a
      ensures r.StateGuardAction?
    {
      StateGuardAction(s, g, a)
    }
  }

  /** An authored row: with no destination, state to state, or with a destination. */
  datatype Row =
    | Undirected(src: SourceShape)
    | StateToState(dst: State, from: State)
    | Directed(dst: State, src: SourceShape)

  /** The one authored shape that is not a record: a state and a bare event with no destination. */
  predicate IsBareStateEvent(row: Row) {
    row.Undirected? && row.src.StateEvent? && row.src.ev.On?
  }

  /**
   The partial specialisations of `transition` that derive from a canonical
   record, one case per specialisation.
   */
  function Normalize(row: Row): (r: Option<Transition>)
    ensures r.None? <==> IsBareStateEvent(row)
    ensures r.Some? ==> (r.value.IsInternal() <==> row.Undirected?)
    ensures r.Some? && !row.Undirected? ==> r.value.s1 == Target(row.dst)
    ensures r.Some? && row.StateToState? ==>
      r.value == Transition(Target(row.dst), row.from, Anonymous, AlwaysGuard, NoneAction)
    ensures r.Some? && !row.StateToState? ==>
      && r.value.s2 == row.src.s
      && r.value.event == row.src.Event()
      && r.value.guard == row.src.Guard()
      && r.value.action == row.src.Action()
  {
    match row
    case StateToState(d, s) => Some(Transition(Target(d), s, Anonymous, AlwaysGuard, NoneAction))
    case Undirected(src) => (
      match src
      case StateGuardAction(s, g, a) => Some(Transition(InternalMarker, s, Anonymous, g, a))
      case StateGuard(s, g) => Some(Transition(InternalMarker, s, Anonymous, g, NoneAction))
      case StateAction(s, a) => Some(Transition(InternalMarker, s, Anonymous, AlwaysGuard, a))
      case StateEvent(s, On(_)) => None
      case StateEvent(s, OnGuard(e, g)) => Some(Transition(InternalMarker, s, e, g, NoneAction))
      case StateEvent(s, OnAction(e, a)) => Some(Transition(InternalMarker, s, e, AlwaysGuard, a))
      case StateEvent(s, OnGuardAction(e, g, a)) => Some(Transition(InternalMarker, s, e, g, a)))
    case Directed(d, src) =>
      match src
      case StateGuardAction(s, g, a) => Some(Transition(Target(d), s, Anonymous, g, a))
      case StateGuard(s, g) => Some(Transition(Target(d), s, Anonymous, g, NoneAction))
      case StateAction(s, a) => Some(Transition(Target(d), s, Anonymous, AlwaysGuard, a))
      case StateEvent(s, On(e)) => Some(Transition(Target(d), s, e, AlwaysGuard, NoneAction))
      case StateEvent(s, OnGuard(e, g)) => Some(Transition(Target(d), s, e, g, NoneAction))
      case StateEvent(s, OnAction(e, a)) => Some(Transition(Target(d), s, e, AlwaysGuard, a))
      case StateEvent(s, OnGuardAction(e, g, a)) => Some(Transition(Target(d), s, e, g, a))
  }

  /**
   `operator=` of a source shape: builds the record with `d` as its first
   state parameter. It replaces only the `internal` marker of the shape's own
   record, and agrees with writing `d ==` in front of the shape.
   */
  function Assign(src: SourceShape, d: State): (r: Transition)
    ensures Normalize(Directed(d, src)) == Some(r)
    ensures Normalize(Undirected(src)).Some? ==> r == Normalize(Undirected(src)).value.(s1 := Target(d))
    ensures !r.IsInternal() && r.DstState() == d
    ensures r.SrcState() == src.s && r.event == src.Event() && r.guard == src.Guard() && r.action == src.Action()
  {
    match src
    case StateGuardAction(s, g, a) => Transition(Target(d), s, Anonymous, g, a)
    case StateGuard(s, g) => Transition(Target(d), s, Anonymous, g, NoneAction)
    case StateAction(s, a) => Transition(Target(d), s, Anonymous, AlwaysGuard, a)
    case StateEvent(s, On(e)) => Transition(Target(d), s, e, AlwaysGuard, NoneAction)
    case StateEvent(s, OnGuard(e, g)) => Transition(Target(d), s, e, g, NoneAction)
    case StateEvent(s, OnAction(e, a)) => Transition(Target(d), s, e, AlwaysGuard, a)
    case StateEvent(s, OnGuardAction(e, g, a)) => Transition(Target(d), s, e, g, a)
  }

  /**
   A row without a destination is a self-transition: its record leaves the
   machine in the state the row is written against.
   */
  lemma UndirectedIsSelfTransition(src: SourceShape)
    requires !IsBareStateEvent(Undirected(src))
    ensures Normalize(Undirected(src)).Some?
    ensures Normalize(Undirected(src)).value.DstState() == src.s
    ensures Normalize(Undirected(src)).value.SrcState() == src.s
  {
  }

  /**
   Two rows that agree once the defaults are filled in normalise to the same
   record: only the source state, event, guard, action and destination matter.
   */
  lemma NormalizeDependsOnlyOnDefaults(d: State, x: SourceShape, y: SourceShape)
    requires x.s == y.s && x.Event() == y.Event() && x.Guard() == y.Guard() && x.Action() == y.Action()
    ensures Normalize(Directed(d, x)) == Normalize(Directed(d, y))
  {
  }

  /**
   The same for rows without a destination: two shapes that agree once the
   defaults are filled in normalise to the same record, provided neither is a
   state + bare event, which is not a record.
   */
  lemma UndirectedDependsOnlyOnDefaults(x: SourceShape, y: SourceShape)
    requires !IsBareStateEvent(Undirected(x)) && !IsBareStateEvent(Undirected(y))
    requires x.s == y.s && x.Event() == y.Event() && x.Guard() == y.Guard() && x.Action() == y.Action()
    ensures Normalize(Undirected(x)) == Normalize(Undirected(y))
  {
  }
}
