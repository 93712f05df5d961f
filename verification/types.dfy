/**
 The type tags a transition record talks about: C++ types as plain values
 (base name, cv-qualifiers, reference category), the event types that
 trigger transitions, and the `detail::state<S>` descriptors with their
 `initial` and `history` flags.
 */
module Types {

  /** Reference category of a C++ type: `T`, `T&` or `T&&`. */
  datatype RefKind = NoRef | LValueRef | RValueRef

  /** A C++ type as a tag. `const e1&` is `Ty("e1", true, false, LValueRef)`. */
  datatype Ty = Ty(name: string, isConst: bool, isVolatile: bool, ref: RefKind)

  /** `aux::remove_reference_t`: drops `&` and `&&` and keeps the cv-qualifiers. */
  function RemoveReference(t: Ty): Ty {
    t.(ref := NoRef)
  }

  /** The type of an event: an object type, never a reference. */
  type EventType = t: Ty | t.ref == NoRef witness Ty("anonymous", false, false, NoRef)

  /** `event<anonymous>`: the trigger of transitions authored without an event. */
  const Anonymous: EventType := Ty("anonymous", false, false, NoRef)

  /** `detail::state<S>`: a declared state and the two flags it carries. */
  datatype State = State(name: string, initial: bool, history: bool)
}
