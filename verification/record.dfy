/**
 The canonical transition record `transition<state<S1>, state<S2>, event<E>, G, A>`
 and the members it derives at compile time: whether it is internal, its
 source and destination states, the `initial`/`history` flags and `deps`.
 */
module Record {

  import opened Types
  import opened TypeList
  import opened Dependencies

  /** The first state parameter `S1`: the `internal` marker or an explicit state. */
  datatype Dest = InternalMarker | Target(state: State)

  /** Which of the four partial specialisations of the record applies. */
  datatype Specialisation = General | AlwaysGuarded | ActionFree | AlwaysActionFree

  /**
   A canonical record. `s2` is the state the row is written against (the
   source); `s1` is the destination, or the `internal` marker meaning that
   the row leaves the machine in `s2`.
   */
  datatype Transition = Transition(s1: Dest, s2: State, event: EventType, guard: Callable, action: Callable) {

    /** `is_internal`: the first state parameter is `internal`. */
    predicate IsInternal() {
      s1.InternalMarker?
    }

    /** `src_state`: always `S2`. */
    function SrcState(): State {
      s2
    }

    /** `dst_state`: `S2` when internal, `S1` otherwise. */
    function DstState(): State {
      match s1
      case InternalMarker => s2
      case Target(d) => d
    }

    /** `initial`, taken from `state<S2>`. */
    predicate Initial() {
      s2.initial
    }

    /** `history`, taken from `state<S2>`. */
    predicate History() {
      s2.history
    }

    /** The partial specialisation C++ selects: `always` and `none` are matched exactly. */
    function Kind(): Specialisation {
      if guard == AlwaysGuard && action == NoneAction then AlwaysActionFree
      else if guard == AlwaysGuard then AlwaysGuarded
      else if action == NoneAction then ActionFree
      else General
    }

    /**
     `deps`, as each specialisation writes it: the unique join of the
     guard's and the action's lists, only the action's, only the guard's,
     or the empty list.
     */
    function Deps(): (r: seq<Ty>)
      ensures NoDup(r)
      ensures forall t :: t in r <==> t in Dependencies.Deps(guard, event) || t in Dependencies.Deps(action, event)
      // the headline fact, stated on its own although the next clause implies it
      ensures event !in r
      ensures forall t :: t in r ==> !DenotesEvent(event, t)
    {
      EventNeverDependency(guard, event);
      EventNeverDependency(action, event);
      match Kind()
      case General => Unique(Dependencies.Deps(guard, event) + Dependencies.Deps(action, event))
      case AlwaysGuarded => Unique(Dependencies.Deps(action, event))
      case ActionFree => Unique(Dependencies.Deps(guard, event))
      case AlwaysActionFree => []
    }
  }

  /**
   The three shortened `deps` definitions agree with the general one: since
   `always` and `none` have no dependencies, every record's `deps` is the
   unique join of its guard's and its action's lists.
   */
  lemma DepsAgreeAcrossSpecialisations(t: Transition)
    ensures t.Deps() == Unique(Dependencies.Deps(t.guard, t.event) + Dependencies.Deps(t.action, t.event))
  {
    SingletonsHaveNoDeps(t.event);
    var g := Dependencies.Deps(t.guard, t.event);
    var a := Dependencies.Deps(t.action, t.event);
    assert [] + a == a;
    assert g + [] == g;
  }

  /**
   A record leaves the machine where it started exactly when it is internal
   or names its own source as destination; the source is always `S2`.
   */
  lemma SelfTransition(t: Transition)
    ensures t.DstState() == t.SrcState() <==> t.IsInternal() || t.s1 == Target(t.s2)
    ensures t.IsInternal() ==> t.DstState() == t.s2
    ensures !t.IsInternal() ==> t.DstState() == t.s1.state
  {
  }

  /** The `initial` and `history` flags do not depend on the first state parameter. */
  lemma FlagsIgnoreDestination(t: Transition, d: Dest)
    ensures t.(s1 := d).Initial() == t.Initial() == t.SrcState().initial
    ensures t.(s1 := d).History() == t.History() == t.SrcState().history
  {
  }
}
