/** Runtime values, type descriptors and the subtype relation that the two
    dispatchers inspect. */
module Values {

  /** The identity of a runtime class (`int`, `str`, a user class, ...). */
  type TypeId = string

  /** A runtime argument. Every value has a runtime type (`type(v)`); a sized
      ordered collection (a tuple, a list, a named tuple) also has elements,
      which a nested descriptor matches position by position. */
  datatype Value =
    | Atom(typ: TypeId)
    | Tup(typ: TypeId, elems: seq<Value>)

  /** One element of a signature: a class (matched with `isinstance`), the
      wildcard string "ANY", or a nested tuple of descriptors. */
  datatype Desc =
    | Concrete(typ: TypeId)
    | Any
    | Nested(sig: seq<Desc>)

  /** A signature, as given to `register(*typesig)`: its length is the arity. */
  type Signature = seq<Desc>

  /** `sub(a, b)` holds when class `a` is `b` or derives from it, so that a value
      of runtime type `a` passes `isinstance(value, b)`. */
  type SubtypeRel = (TypeId, TypeId) -> bool

  /** What Python's class hierarchy guarantees of `isinstance`: every class is
      a subclass of itself and derivation is transitive. */
  ghost predicate IsSubtypeOrder(sub: SubtypeRel) {
    && (forall a :: sub(a, a))
    && (forall a, b, c :: sub(a, b) && sub(b, c) ==> sub(a, c))
  }

  /** A flat signature made only of classes, as the exact dispatcher registers. */
  function Flat(types: seq<TypeId>): (sig: Signature)
    ensures |sig| == |types|
    ensures forall i :: 0 <= i < |types| ==> sig[i] == Concrete(types[i])
  {
    seq(|types|, i requires 0 <= i < |types| => Concrete(types[i]))
  }
}
