/**
 Dependency inference (`ignore`, `get_deps`): the types a guard or an action
 asks for that are not the event itself, and which an injector must
 therefore supply.
 */
module Dependencies {

  import opened Types

  /**
   A guard or an action. `AlwaysGuard` and `NoneAction` are the zero-size
   `always` and `none` singletons. A `Callee` is any other callable; it
   carries the parameter list that `args_t<T, E>` yields for the event of
   the transition it sits in. A `Combinator` is a callable derived from
   `operator_base` (a conjunction of guards, a sequence of actions, ...),
   built from its operands.
   */
  datatype Callable =
    | AlwaysGuard
    | NoneAction
    | Callee(name: string, params: seq<Ty>)
    | Combinator(name: string, operands: seq<Callable>)

  /** A parameter denotes the event when its reference-stripped type is the event type. */
  predicate DenotesEvent(e: EventType, t: Ty) {
    RemoveReference(t) == e
  }

  /** The contribution of one parameter to the filtered list: none, or itself. */
  function Keep(e: EventType, t: Ty): seq<Ty> {
    if DenotesEvent(e, t) then [] else [t]
  }

  /** `ignore<E, type_list<Ts...>>`: joins `Keep(e, t)` over the parameters, in order. */
  function Ignore(e: EventType, ts: seq<Ty>): (r: seq<Ty>)
    ensures forall t :: t in r <==> t in ts && !DenotesEvent(e, t)
    ensures |r| <= |ts|
  {
    if ts == [] then [] else Keep(e, ts[0]) + Ignore(e, ts[1..])
  }

  /** `args_t<T, E>` of a leaf callable: `always` and `none` take no parameters. */
  function Args(c: Callable): seq<Ty> {
    match c
    case Callee(_, ps) => ps
    case _ => []
  }

  /** The parameters of every leaf of a callable, left to right. */
  function Params(c: Callable): seq<Ty>
    decreases c
  {
    match c
    case Combinator(_, xs) => ParamsAll(xs)
    case _ => Args(c)
  }

  function ParamsAll(xs: seq<Callable>): seq<Ty>
    decreases xs
  {
    if xs == [] then [] else Params(xs[0]) + ParamsAll(xs[1..])
  }

  /**
   `get_deps_t<T, E>`: for a leaf, its parameters with the event filtered
   out; for a combinator, the join of its operands' dependency lists.
   */
  function Deps(c: Callable, e: EventType): (r: seq<Ty>)
    ensures forall t :: t in r <==> t in Params(c) && !DenotesEvent(e, t)
    decreases c
  {
    match c
    case Combinator(_, xs) => DepsAll(xs, e)
    case _ => Ignore(e, Args(c))
  }

  /** The join of `get_deps_t<Ts, E>...` over the operands of a combinator. */
  function DepsAll(xs: seq<Callable>, e: EventType): (r: seq<Ty>)
    ensures forall t :: t in r <==> t in ParamsAll(xs) && !DenotesEvent(e, t)
    decreases xs
  {
    if xs == [] then [] else Deps(xs[0], e) + DepsAll(xs[1..], e)
  }

  /** Filtering distributes over joining: the kept parameters stay in their original order. */
  lemma {:induction false} IgnoreJoin(e: EventType, a: seq<Ty>, b: seq<Ty>)
    ensures Ignore(e, a + b) == Ignore(e, a) + Ignore(e, b)
    decreases |a|
  {
    if a == [] {
      assert a + b == b;
    } else {
      assert (a + b)[0] == a[0];
      assert (a + b)[1..] == a[1..] + b;
      IgnoreJoin(e, a[1..], b);
    }
  }

  /** A parameter list with no event parameter is kept whole. */
  lemma {:induction false} IgnoreKeepsAll(e: EventType, ts: seq<Ty>)
    requires forall t :: t in ts ==> !DenotesEvent(e, t)
    ensures Ignore(e, ts) == ts
    decreases |ts|
  {
    if ts != [] {
      assert ts[0] in ts;
      assert forall t :: t in ts[1..] ==> t in ts;
      IgnoreKeepsAll(e, ts[1..]);
    }
  }

  /** Filtering once is enough: a filtered list is left unchanged by a second filter. */
  lemma IgnoreIdempotent(e: EventType, ts: seq<Ty>)
    ensures Ignore(e, Ignore(e, ts)) == Ignore(e, ts)
  {
    IgnoreKeepsAll(e, Ignore(e, ts));
  }

  /**
   Dependency inference is the event filter applied to the in-order
   concatenation of every leaf's parameter list: recursing through
   combinators first and filtering afterwards gives the same list.
   */
  lemma {:induction false} DepsIsFilteredParams(c: Callable, e: EventType)
    ensures Deps(c, e) == Ignore(e, Params(c))
    decreases c
  {
    match c
    case Combinator(_, xs) => DepsAllIsFilteredParams(xs, e);
    case _ =>
  }

  lemma {:induction false} DepsAllIsFilteredParams(xs: seq<Callable>, e: EventType)
    ensures DepsAll(xs, e) == Ignore(e, ParamsAll(xs))
    decreases xs
  {
    if xs != [] {
      DepsIsFilteredParams(xs[0], e);
      DepsAllIsFilteredParams(xs[1..], e);
      IgnoreJoin(e, Params(xs[0]), ParamsAll(xs[1..]));
    }
  }

  /** A combinator's dependency list is its operands' lists joined in order. */
  lemma {:induction false} CombinatorDepsJoin(name: string, xs: seq<Callable>, ys: seq<Callable>, e: EventType)
    ensures Deps(Combinator(name, xs + ys), e) == DepsAll(xs, e) + DepsAll(ys, e)
    decreases xs
  {
    if xs == [] {
      assert xs + ys == ys;
    } else {
      assert (xs + ys)[0] == xs[0];
      assert (xs + ys)[1..] == xs[1..] + ys;
      CombinatorDepsJoin(name, xs[1..], ys, e);
    }
  }

  /** The event type itself is never a dependency. */
  lemma EventNeverDependency(c: Callable, e: EventType)
    ensures e !in Deps(c, e)
  {
    assert DenotesEvent(e, e);
  }

  /** `always` and `none` need nothing from the injector. */
  lemma SingletonsHaveNoDeps(e: EventType)
    ensures Deps(AlwaysGuard, e) == []
    ensures Deps(NoneAction, e) == []
  {
  }
}
