/** The structural matcher `pattern_match(sig, instance)`: does a possibly
    nested, possibly wildcarded signature match a tuple of arguments? */
module PatternMatching {
  import opened Values

  /** What `pattern_match` does with a pair of inputs: return True, return
      False, or raise the TypeError of `len()` applied to a value that has no
      length (a nested descriptor met an argument that is not a collection). */
  datatype Outcome = Match | NoMatch | NotSized

  /** Matching a whole signature against a tuple of arguments. Arity is
      checked first; then the positions are tried from left to right and the
      first position that does not match decides the outcome. */
  function PatternMatch(sig: Signature, args: seq<Value>, sub: SubtypeRel): (r: Outcome)
    decreases sig, 1
    ensures |sig| != |args| ==> r == NoMatch
    ensures r == Match <==>
      |sig| == |args| && forall i :: 0 <= i < |sig| ==> MatchDesc(sig[i], args[i], sub) == Match
    ensures r != Match && |sig| == |args| ==>
      exists k :: 0 <= k < |sig| && MatchDesc(sig[k], args[k], sub) == r &&
        forall j :: 0 <= j < k ==> MatchDesc(sig[j], args[j], sub) == Match
  {
    if |sig| != |args| then NoMatch else MatchEach(sig, args, sub)
  }

  /** The `for expected, actual in zip(sig, instance)` loop, with its early
      returns, over two sequences already known to have the same length. */
  function MatchEach(sig: Signature, args: seq<Value>, sub: SubtypeRel): (r: Outcome)
    requires |sig| == |args|
    decreases sig, 0
    ensures r == Match <==> forall i :: 0 <= i < |sig| ==> MatchDesc(sig[i], args[i], sub) == Match
    ensures r != Match ==>
      exists k :: 0 <= k < |sig| && MatchDesc(sig[k], args[k], sub) == r &&
        forall j :: 0 <= j < k ==> MatchDesc(sig[j], args[j], sub) == Match
  {
    if sig == [] then Match
    else
      var here := MatchDesc(sig[0], args[0], sub);
      if here != Match then here
      else
        var rest := MatchEach(sig[1..], args[1..], sub);
        assert forall i :: 1 <= i < |sig| ==> sig[1..][i - 1] == sig[i] && args[1..][i - 1] == args[i];
        rest
  }

  /** One position of the loop: a nested tuple recurses into the argument
      (raising when the argument has no length), "ANY" accepts every value,
      and a class accepts instances of itself and of its subclasses. */
  function MatchDesc(d: Desc, v: Value, sub: SubtypeRel): (r: Outcome)
    decreases d, 2
    ensures d.Any? ==> r == Match
    ensures d.Concrete? ==> r != NotSized && (r == Match <==> sub(v.typ, d.typ))
    ensures d.Nested? && v.Atom? ==> r == NotSized
    ensures d.Nested? && v.Tup? ==>
      (r == Match <==> |d.sig| == |v.elems| &&
                       forall i :: 0 <= i < |d.sig| ==> MatchDesc(d.sig[i], v.elems[i], sub) == Match)
    ensures d.Nested? && v.Tup? && |d.sig| != |v.elems| ==> r == NoMatch
    ensures d.Nested? && v.Tup? && |d.sig| == |v.elems| && r != Match ==>
      exists k :: 0 <= k < |d.sig| && MatchDesc(d.sig[k], v.elems[k], sub) == r &&
        forall j :: 0 <= j < k ==> MatchDesc(d.sig[j], v.elems[j], sub) == Match
  {
    match d
    case Nested(ds) => if v.Tup? then PatternMatch(ds, v.elems, sub) else NotSized
    case Any => Match
    case Concrete(t) => if sub(v.typ, t) then Match else NoMatch
  }

  /** Matching proceeds from the first position to the rest: a first
      position that fails decides the outcome, one that matches hands the
      decision to the remaining positions. */
  lemma MatchCons(d: Desc, sig: Signature, v: Value, args: seq<Value>, sub: SubtypeRel)
    requires |sig| == |args|
    ensures PatternMatch([d] + sig, [v] + args, sub) ==
      if MatchDesc(d, v, sub) != Match then MatchDesc(d, v, sub) else PatternMatch(sig, args, sub)
  {
  }

  /** The first position that does not match decides the outcome: the whole
      match is false, or raises, exactly as that position does. */
  lemma FirstFailureDecides(sig: Signature, args: seq<Value>, sub: SubtypeRel, k: nat)
    requires |sig| == |args| && k < |sig|
    requires forall j :: 0 <= j < k ==> MatchDesc(sig[j], args[j], sub) == Match
    requires MatchDesc(sig[k], args[k], sub) != Match
    ensures PatternMatch(sig, args, sub) == MatchDesc(sig[k], args[k], sub)
  {
  }

  /** A wildcard position does not look at its argument: replacing that
      argument by any other value, a collection included, leaves the outcome
      of the whole match unchanged. */
  lemma {:induction false} AnyIgnoresValue(sig: Signature, args: seq<Value>, i: nat, v: Value, sub: SubtypeRel)
    requires i < |sig| && i < |args| && sig[i] == Any
    ensures PatternMatch(sig, args[i := v], sub) == PatternMatch(sig, args, sub)
  {
    if |sig| == |args| {
      EachAnyIgnoresValue(sig, args, i, v, sub);
    }
  }

  lemma {:induction false} EachAnyIgnoresValue(sig: Signature, args: seq<Value>, i: nat, v: Value, sub: SubtypeRel)
    requires |sig| == |args| && i < |sig| && sig[i] == Any
    ensures MatchEach(sig, args[i := v], sub) == MatchEach(sig, args, sub)
  {
    if i > 0 {
      assert args[i := v][1..] == args[1..][i - 1 := v];
      EachAnyIgnoresValue(sig[1..], args[1..], i - 1, v, sub);
    }
  }

  /** `g` accepts at least the values `s` accepts, judged by the shape of the
      two descriptors alone: a wildcard covers everything, a class covers its
      subclasses, and a nested tuple covers a nested tuple of the same length
      position by position. */
  predicate DescCovers(g: Desc, s: Desc, sub: SubtypeRel)
    decreases g
  {
    match g
    case Any => true
    case Concrete(t) => s.Concrete? && sub(s.typ, t)
    case Nested(gs) => s.Nested? && SigCovers(gs, s.sig, sub)
  }

  predicate SigCovers(gs: Signature, ss: Signature, sub: SubtypeRel)
    decreases gs
  {
    |gs| == |ss| && forall i :: 0 <= i < |gs| ==> DescCovers(gs[i], ss[i], sub)
  }

  /** Soundness of covering: whatever the covered signature matches, the
      covering one matches too. */
  lemma {:induction false} CoversPreservesMatch(gs: Signature, ss: Signature, args: seq<Value>, sub: SubtypeRel)
    requires IsSubtypeOrder(sub)
    requires SigCovers(gs, ss, sub)
    requires PatternMatch(ss, args, sub) == Match
    ensures PatternMatch(gs, args, sub) == Match
    decreases gs
  {
    forall i | 0 <= i < |gs| ensures MatchDesc(gs[i], args[i], sub) == Match {
      DescCoversPreservesMatch(gs[i], ss[i], args[i], sub);
    }
  }

  lemma {:induction false} DescCoversPreservesMatch(g: Desc, s: Desc, v: Value, sub: SubtypeRel)
    requires IsSubtypeOrder(sub)
    requires DescCovers(g, s, sub)
    requires MatchDesc(s, v, sub) == Match
    ensures MatchDesc(g, v, sub) == Match
    decreases g
  {
    match g
    case Any =>
    case Concrete(t) =>
      assert sub(v.typ, s.typ) && sub(s.typ, t);
    case Nested(gs) =>
      CoversPreservesMatch(gs, s.sig, v.elems, sub);
  }
}
