/** The behaviour the repository's tests exercise, stated over a small part of
    Python's builtin class hierarchy. */
module Scenarios {
  import opened Values
  import opened PatternMatching
  import opened OrderedDispatch
  import opened ExactDispatch

  const Int: TypeId := "int"
  const Str: TypeId := "str"
  const Bool: TypeId := "bool"
  const Object: TypeId := "object"
  const Tuple: TypeId := "tuple"

  /** `issubclass` on the classes used here: `bool` derives from `int`, and
      every class derives from `object`. */
  function PySubclass(a: TypeId, b: TypeId): bool {
    a == b || b == Object || (a == Bool && b == Int)
  }

  lemma PySubclassIsSubtypeOrder()
    ensures IsSubtypeOrder(PySubclass)
  {
  }

  /** A two-argument match decides on the first argument unless it matches,
      and then on the second. */
  lemma Pair(d0: Desc, d1: Desc, v0: Value, v1: Value, sub: SubtypeRel)
    ensures PatternMatch([d0, d1], [v0, v1], sub) ==
      if MatchDesc(d0, v0, sub) != Match then MatchDesc(d0, v0, sub) else MatchDesc(d1, v1, sub)
  {
    assert [d0, d1][1..] == [d1] && [v0, v1][1..] == [v1];
    assert MatchEach([d1], [v1], sub) == MatchDesc(d1, v1, sub) by {
      assert [d1][1..] == [] && [v1][1..] == [];
    }
  }

  lemma Single(d: Desc, v: Value, sub: SubtypeRel)
    ensures PatternMatch([d], [v], sub) == MatchDesc(d, v, sub)
  {
  }

  /** The five assertions of the matcher's unit test, and the TypeError that
      `len(3)` raises under a nested descriptor. */
  lemma PatternMatchTests()
    ensures PatternMatch([Concrete(Int), Nested([Concrete(Str), Concrete(Str)])],
                         [Atom(Int), Tup(Tuple, [Atom(Str), Atom(Str)])], PySubclass) == Match
    ensures PatternMatch([Concrete(Int), Nested([Concrete(Str), Concrete(Str)])],
                         [Atom(Int), Tup(Tuple, [Atom(Str), Atom(Int)])], PySubclass) == NoMatch
    ensures PatternMatch([Concrete(Int), Nested([Any, Concrete(Str)])],
                         [Atom(Int), Tup(Tuple, [Atom(Str), Atom(Str)])], PySubclass) == Match
    ensures PatternMatch([Concrete(Int)], [Atom(Int), Atom(Int)], PySubclass) == NoMatch
    ensures PatternMatch([Concrete(Int), Concrete(Int)], [Atom(Int)], PySubclass) == NoMatch
    ensures PatternMatch([Nested([Concrete(Int)])], [Atom(Int)], PySubclass) == NotSized
    ensures PatternMatch([], [], PySubclass) == Match
  {
    var strs := [Concrete(Str), Concrete(Str)];
    Pair(Concrete(Str), Concrete(Str), Atom(Str), Atom(Str), PySubclass);
    Pair(Concrete(Int), Nested(strs), Atom(Int), Tup(Tuple, [Atom(Str), Atom(Str)]), PySubclass);
    Pair(Concrete(Str), Concrete(Str), Atom(Str), Atom(Int), PySubclass);
    Pair(Concrete(Int), Nested(strs), Atom(Int), Tup(Tuple, [Atom(Str), Atom(Int)]), PySubclass);
    Pair(Any, Concrete(Str), Atom(Str), Atom(Str), PySubclass);
    Pair(Concrete(Int), Nested([Any, Concrete(Str)]), Atom(Int), Tup(Tuple, [Atom(Str), Atom(Str)]), PySubclass);
    Single(Nested([Concrete(Int)]), Atom(Int), PySubclass);
  }

  /** A TypeError raised inside a nested position propagates: the signature
      `((int, (int,)),)` against the argument `((1, 2),)` raises, because `len(2)`
      fails, and does not return False. */
  lemma DeepRaisePropagates()
    ensures PatternMatch([Nested([Concrete(Int), Nested([Concrete(Int)])])],
                         [Tup(Tuple, [Atom(Int), Atom(Int)])], PySubclass) == NotSized
  {
    Pair(Concrete(Int), Nested([Concrete(Int)]), Atom(Int), Atom(Int), PySubclass);
    Single(Nested([Concrete(Int), Nested([Concrete(Int)])]), Tup(Tuple, [Atom(Int), Atom(Int)]), PySubclass);
  }

  /** The nested signature `((T1, T2),)` matches the argument `((v1, v2),)`
      exactly when each inner value is an instance of its class; an inner
      tuple of another length never matches. */
  lemma NestedPair(t1: TypeId, t2: TypeId, ty: TypeId, inner: seq<Value>, sub: SubtypeRel)
    ensures PatternMatch([Nested([Concrete(t1), Concrete(t2)])], [Tup(ty, inner)], sub) == Match <==>
      |inner| == 2 && sub(inner[0].typ, t1) && sub(inner[1].typ, t2)
  {
  }

  const IntStr: Signature := [Concrete(Int), Concrete(Str)]
  const StrInt: Signature := [Concrete(Str), Concrete(Int)]
  const IntInt: Signature := [Concrete(Int), Concrete(Int)]

  /** The registry of the concatenation test: the stacked registrations put
      `(int, str)` first, then `(str, int)`; `(int, int)` comes last. */
  const ConcatOrder: seq<Signature> := [IntStr, StrInt, IntInt]

  /** `concat('1', '2')`: no entry matches, so the default is used. */
  lemma ScanStrStr()
    ensures FirstMatchFrom(ConcatOrder, [Atom(Str), Atom(Str)], PySubclass, 0) == Exhausted
  {
    var args := [Atom(Str), Atom(Str)];
    assert PatternMatch(IntStr, args, PySubclass) == NoMatch by {
      Pair(Concrete(Int), Concrete(Str), Atom(Str), Atom(Str), PySubclass);
    }
    assert PatternMatch(StrInt, args, PySubclass) == NoMatch by {
      Pair(Concrete(Str), Concrete(Int), Atom(Str), Atom(Str), PySubclass);
    }
    assert PatternMatch(IntInt, args, PySubclass) == NoMatch by {
      Pair(Concrete(Int), Concrete(Int), Atom(Str), Atom(Str), PySubclass);
    }
    assert FirstMatchFrom(ConcatOrder, args, PySubclass, 3) == Exhausted;
    assert FirstMatchFrom(ConcatOrder, args, PySubclass, 2) == Exhausted;
    assert FirstMatchFrom(ConcatOrder, args, PySubclass, 1) == Exhausted;
  }

  /** `concat('1', 3)`: the second entry, `(str, int)`. */
  lemma ScanStrInt()
    ensures FirstMatchFrom(ConcatOrder, [Atom(Str), Atom(Int)], PySubclass, 0) == Found(1)
  {
    var args := [Atom(Str), Atom(Int)];
    assert PatternMatch(IntStr, args, PySubclass) == NoMatch by {
      Pair(Concrete(Int), Concrete(Str), Atom(Str), Atom(Int), PySubclass);
    }
    assert PatternMatch(StrInt, args, PySubclass) == Match by {
      Pair(Concrete(Str), Concrete(Int), Atom(Str), Atom(Int), PySubclass);
    }
    FirstMatchIsFirst(ConcatOrder, args, PySubclass, 0, 1);
  }

  /** `concat(1, 3)`: the third entry, `(int, int)`. */
  lemma ScanIntInt()
    ensures FirstMatchFrom(ConcatOrder, [Atom(Int), Atom(Int)], PySubclass, 0) == Found(2)
  {
    var args := [Atom(Int), Atom(Int)];
    assert PatternMatch(IntStr, args, PySubclass) == NoMatch by {
      Pair(Concrete(Int), Concrete(Str), Atom(Int), Atom(Int), PySubclass);
    }
    assert PatternMatch(StrInt, args, PySubclass) == NoMatch by {
      Pair(Concrete(Str), Concrete(Int), Atom(Int), Atom(Int), PySubclass);
    }
    assert PatternMatch(IntInt, args, PySubclass) == Match by {
      Pair(Concrete(Int), Concrete(Int), Atom(Int), Atom(Int), PySubclass);
    }
    FirstMatchIsFirst(ConcatOrder, args, PySubclass, 0, 2);
  }

  /** `concat(1, '3')`: the first entry, `(int, str)`. */
  lemma ScanIntStr()
    ensures FirstMatchFrom(ConcatOrder, [Atom(Int), Atom(Str)], PySubclass, 0) == Found(0)
  {
  }

  /** `test_pmultidispatch`: a default, one handler stacked on `(str, int)`
      over `(int, str)`, and one on `(int, int)`. The inner registration is
      installed first. */
  method PatternConcatScenario() returns (order: seq<Signature>, r1: Resolution<string>, r2: Resolution<string>,
                                          r3: Resolution<string>, r4: Resolution<string>)
    ensures order == ConcatOrder
    ensures r1 == Selected("default")
    ensures r2 == Selected("stacked")
    ensures r3 == Selected("last")
    ensures r4 == Selected("stacked")
  {
    var concat := new PatternDispatcher<string>("default");
    var g := concat.Register(IntStr, "stacked");
    g := concat.Register(StrInt, g);
    g := concat.Register(IntInt, "last");
    order := concat.order;
    assert order == ConcatOrder;
    ScanStrStr();
    r1 := concat.Resolve([Atom(Str), Atom(Str)], PySubclass);
    ScanStrInt();
    r2 := concat.Resolve([Atom(Str), Atom(Int)], PySubclass);
    ScanIntInt();
    r3 := concat.Resolve([Atom(Int), Atom(Int)], PySubclass);
    ScanIntStr();
    r4 := concat.Resolve([Atom(Int), Atom(Str)], PySubclass);
  }

  /** `test_multidispatch`: the same registrations on the exact dispatcher
      select the same handlers. */
  method ExactConcatScenario() returns (h1: string, h2: string, h3: string, h4: string)
    ensures h1 == "default" && h2 == "stacked" && h3 == "last" && h4 == "stacked"
  {
    var concat := new TypeDispatcher<string>("default");
    var g := concat.Register([Int, Str], "stacked");
    g := concat.Register([Str, Int], g);
    g := concat.Register([Int, Int], "last");
    assert RuntimeTypes([Atom(Str), Atom(Str)]) == [Str, Str];
    h1 := concat.Resolve([Atom(Str), Atom(Str)]);
    assert RuntimeTypes([Atom(Str), Atom(Int)]) == [Str, Int];
    h2 := concat.Resolve([Atom(Str), Atom(Int)]);
    assert RuntimeTypes([Atom(Int), Atom(Int)]) == [Int, Int];
    h3 := concat.Resolve([Atom(Int), Atom(Int)]);
    assert RuntimeTypes([Atom(Int), Atom(Str)]) == [Int, Str];
    h4 := concat.Resolve([Atom(Int), Atom(Str)]);
  }

  /** Two `bool` arguments reach the `(int, int)` handler through the pattern
      dispatcher, which accepts subclasses, but fall back to the default in
      the exact dispatcher, which does not. */
  method SubclassScenario() returns (pattern: Resolution<string>, exact: string)
    ensures pattern == Selected("ints")
    ensures exact == "default"
  {
    var p := new PatternDispatcher<string>("default");
    var g := p.Register(IntInt, "ints");
    assert p.order == [IntInt];
    assert PatternMatch(IntInt, [Atom(Bool), Atom(Bool)], PySubclass) == Match by {
      Pair(Concrete(Int), Concrete(Int), Atom(Bool), Atom(Bool), PySubclass);
    }
    FirstMatchIsFirst(p.order, [Atom(Bool), Atom(Bool)], PySubclass, 0, 0);
    pattern := p.Resolve([Atom(Bool), Atom(Bool)], PySubclass);
    var e := new TypeDispatcher<string>("default");
    g := e.Register([Int, Int], "ints");
    assert RuntimeTypes([Atom(Bool), Atom(Bool)]) == [Bool, Bool];
    exact := e.Resolve([Atom(Bool), Atom(Bool)]);
  }

  /** Registering an identical signature twice leaves one entry in the
      ordered registry, and that entry holds the second handler. */
  method PatternReRegisterScenario() returns (entries: nat, r: Resolution<string>)
    ensures entries == 1
    ensures r == Selected("second")
  {
    var p := new PatternDispatcher<string>("default");
    var g := p.Register(IntInt, "first");
    g := p.Register(IntInt, "second");
    entries := |p.order|;
    assert PatternMatch(IntInt, [Atom(Int), Atom(Int)], PySubclass) == Match by {
      Pair(Concrete(Int), Concrete(Int), Atom(Int), Atom(Int), PySubclass);
    }
    FirstMatchIsFirst(p.order, [Atom(Int), Atom(Int)], PySubclass, 0, 0);
    r := p.Resolve([Atom(Int), Atom(Int)], PySubclass);
  }

  /** In the exact registry the second handler for a key overwrites the
      first. */
  method ExactReRegisterScenario() returns (h: string)
    ensures h == "second"
  {
    var e := new TypeDispatcher<string>("default");
    var g := e.Register([Int, Int], "first");
    g := e.Register([Int, Int], "second");
    assert RuntimeTypes([Atom(Int), Atom(Int)]) == [Int, Int];
    h := e.Resolve([Atom(Int), Atom(Int)]);
  }

  /** An earlier entry with a nested descriptor makes a call with a plain
      argument at that position raise, even though a later entry matches:
      the scan never reaches it. */
  method RaisingScenario() returns (r: Resolution<string>)
    ensures r == TypeErrorRaised
  {
    var p := new PatternDispatcher<string>("default");
    var g := p.Register([Nested([Concrete(Int), Concrete(Int)])], "pair");
    g := p.Register([Concrete(Int)], "int");
    Single(Nested([Concrete(Int), Concrete(Int)]), Atom(Int), PySubclass);
    FirstMatchIsFirst(p.order, [Atom(Int)], PySubclass, 0, 0);
    r := p.Resolve([Atom(Int)], PySubclass);
  }
}
