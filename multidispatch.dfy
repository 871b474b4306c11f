/** `multidispatch`: the exact-type dispatcher. Its registry is a dictionary
    keyed by the tuple of the arguments' runtime types, which also holds the
    default handler under the key 'default'. There is no subtyping, no
    wildcard and no nesting. */
module ExactDispatch {
  import opened Values
  import opened PatternMatching

  /** A key of the registry dictionary: the string 'default' or a tuple of
      classes. `register(*types)` always builds a tuple, so it can never
      produce the 'default' key. */
  datatype Key = DefaultKey | TypesKey(types: seq<TypeId>)

  /** `tuple(type(arg) for arg in args)`: the lookup key of a call. */
  function RuntimeTypes(args: seq<Value>): (types: seq<TypeId>)
    ensures |types| == |args|
    ensures forall i :: 0 <= i < |args| ==> types[i] == args[i].typ
  {
    seq(|args|, i requires 0 <= i < |args| => args[i].typ)
  }

  /** The arguments' runtime types are exactly `types`, position by position. */
  predicate TypedExactlyAs(types: seq<TypeId>, args: seq<Value>) {
    |types| == |args| && forall i :: 0 <= i < |args| ==> args[i].typ == types[i]
  }

  /** A tuple of types is the lookup key of a call exactly when the call's
      arguments have those runtime types: there is one key per call. */
  lemma RuntimeTypesIsTheKey(types: seq<TypeId>, args: seq<Value>)
    ensures TypedExactlyAs(types, args) <==> types == RuntimeTypes(args)
  {
  }

  /** Exact dispatch is pattern dispatch over a flat signature of classes
      with `isinstance` replaced by identity of runtime types,
      `type(v) == t`. */
  lemma ExactIsPatternWithSameType(types: seq<TypeId>, args: seq<Value>)
    ensures PatternMatch(Flat(types), args, (a, b) => a == b) == Match <==> TypedExactlyAs(types, args)
  {
  }

  /** What a flat signature of classes accepts under `isinstance`: each
      argument's runtime type must derive from the class at its position. */
  lemma FlatPatternAcceptsSubtypes(types: seq<TypeId>, args: seq<Value>, sub: SubtypeRel)
    ensures PatternMatch(Flat(types), args, sub) == Match <==>
      |types| == |args| && forall i :: 0 <= i < |args| ==> sub(args[i].typ, types[i])
  {
  }

  /** A call that finds a key in the exact registry would also be matched by
      the same classes registered with the pattern dispatcher. */
  lemma ExactKeyImpliesPatternMatch(types: seq<TypeId>, args: seq<Value>, sub: SubtypeRel)
    requires IsSubtypeOrder(sub)
    requires TypedExactlyAs(types, args)
    ensures PatternMatch(Flat(types), args, sub) == Match
  {
  }

  /** The dispatcher object: the registry dictionary, default included. */
  class TypeDispatcher<H> {
    var registry: map<Key, H>

    /** The registry always holds the default handler. */
    ghost predicate Valid()
      reads this
    {
      DefaultKey in registry
    }

    /** `multidispatch(f)`: the registry `{'default': f}`. */
    constructor (f: H)
      ensures Valid()
      ensures registry == map[DefaultKey := f]
    {
      registry := map[DefaultKey := f];
    }

    /** `register(*types)(g)`: `registry[types] = g`, inserting or overwriting,
        and returns `g` itself. The default handler is never replaced. */
    method Register(types: seq<TypeId>, g: H) returns (r: H)
      requires Valid()
      modifies this
      ensures Valid()
      ensures r == g
      ensures registry == old(registry)[TypesKey(types) := g]
      ensures registry[DefaultKey] == old(registry)[DefaultKey]
    {
      registry := registry[TypesKey(types) := g];
      r := g;
    }

    /** The handler `dispatcher(*args)` calls: the one registered under the
        exact runtime types of the arguments, otherwise the default. */
    function Resolve(args: seq<Value>): (h: H)
      reads this
      requires Valid()
      ensures TypesKey(RuntimeTypes(args)) in registry ==> h == registry[TypesKey(RuntimeTypes(args))]
      ensures TypesKey(RuntimeTypes(args)) !in registry ==> h == registry[DefaultKey]
      ensures forall types :: TypesKey(types) in registry && TypedExactlyAs(types, args) ==>
        h == registry[TypesKey(types)]
      ensures (forall types :: TypesKey(types) in registry ==> !TypedExactlyAs(types, args)) ==>
        h == registry[DefaultKey]
    {
      var key := TypesKey(RuntimeTypes(args));
      assert forall types :: TypedExactlyAs(types, args) ==> types == RuntimeTypes(args) by {
        forall types | TypedExactlyAs(types, args) ensures types == RuntimeTypes(args) {
          RuntimeTypesIsTheKey(types, args);
        }
      }
      assert key in registry ==> TypedExactlyAs(key.types, args);
      if key in registry then registry[key] else registry[DefaultKey]
    }
  }
}
