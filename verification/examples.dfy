/**
 Worked instances: the row of the demonstration table in `msm.cpp` and the
 dependency lists of the callables declared beside it.
 */
module Examples {

  import opened Wrappers
  import opened Types
  import opened Dependencies
  import opened Record
  import opened Execution
  import opened Shorthand

  const E1: EventType := Ty("e1", false, false, NoRef)
  const Int: Ty := Ty("int", false, false, NoRef)
  const Double: Ty := Ty("double", false, false, NoRef)
  const FloatRef: Ty := Ty("float", false, false, LValueRef)

  const Idle := State("idle", true, false)
  const S1 := State("s1", false, false)

  /** `action1`: takes nothing. */
  const Action1 := Callee("action1", [])
  /** `guard1`: takes the event by value and an `int`. */
  const Guard1 := Callee("guard1", [E1, Int])
  /** `guard2`: takes only the event. */
  const Guard2 := Callee("guard2", [E1])
  /** `action2`: takes a `double` and a `float&`. */
  const Action2 := Callee("action2", [Double, FloatRef])

  /**
   `idle == s1 + event<e1> / action1`: a record from `s1` to `idle` on `e1`
   with the `always` guard, needing nothing from the injector; its flags are
   those of `s1`, and executing it updates the state and then calls `action1`.
   */
  lemma DemoRow(current: StateId, env: Env)
    ensures var t := Transition(Target(Idle), S1, E1, AlwaysGuard, Action1);
      && Normalize(Directed(Idle, StateEvent(S1, OnAction(E1, Action1)))) == Some(t)
      && t.Kind() == AlwaysGuarded
      && t.Deps() == []
      && t.Initial() == S1.initial && !t.Initial()
      && t.History() == S1.history
      && Execute(t, current, env).fired
      && Execute(t, current, env).trace == [Update(env.idOf(Idle), false), CallAction(Action1)]
  {
  }

  /** The event parameters of `guard1` and `guard2` are dropped, the others are kept in order. */
  lemma DemoDeps()
    ensures Deps(Guard1, E1) == [Int]
    ensures Deps(Guard2, E1) == []
    ensures Deps(Action1, E1) == []
    ensures Deps(Action2, E1) == [Double, FloatRef]
  {
    assert [E1, Int][1..] == [Int];
    assert [Int][1..] == [];
    assert [E1][1..] == [];
    assert Ignore(E1, [Int]) == Keep(E1, Int) + Ignore(E1, []) == [Int];
    assert Ignore(E1, [E1, Int]) == [] + [Int];
    assert Ignore(E1, [E1]) == [] + [];
    assert [Double, FloatRef][1..] == [FloatRef];
    assert [FloatRef][1..] == [];
    assert Ignore(E1, [FloatRef]) == Keep(E1, FloatRef) + Ignore(E1, []) == [FloatRef];
    assert Ignore(E1, [Double, FloatRef]) == [Double] + [FloatRef];
  }

  /** `guard1 && guard2` needs an `int`; `(action1, action2)` needs a `double` and a `float&`. */
  lemma DemoCombinatorDeps()
    ensures Deps(Combinator("and", [Guard1, Guard2]), E1) == [Int]
    ensures Deps(Combinator("seq", [Action1, Action2]), E1) == [Double, FloatRef]
  {
    DemoDeps();
    assert [Guard1, Guard2][1..] == [Guard2];
    assert [Guard2][1..] == [];
    assert DepsAll([Guard2], E1) == Deps(Guard2, E1) + DepsAll([], E1) == [];
    assert DepsAll([Guard1, Guard2], E1) == [Int] + [];
    assert [Action1, Action2][1..] == [Action2];
    assert [Action2][1..] == [];
    assert DepsAll([Action2], E1) == Deps(Action2, E1) + DepsAll([], E1) == [Double, FloatRef];
    assert DepsAll([Action1, Action2], E1) == [] + [Double, FloatRef];
  }

  /**
   Only references are stripped before comparing with the event type: an
   `e1&&` parameter is the event, a `const e1&` parameter is a dependency.
   */
  lemma QualifiersAreKept()
    ensures Deps(Callee("g", [Ty("e1", false, false, RValueRef)]), E1) == []
    ensures Deps(Callee("q", [Ty("e1", true, false, LValueRef)]), E1) == [Ty("e1", true, false, LValueRef)]
  {
  }
}
