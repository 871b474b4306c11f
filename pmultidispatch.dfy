/** `pmultidispatch`: the order-sensitive dispatcher. Its registry is an
    ordered dictionary from signature to handler; a call selects the handler
    of the first entry, in insertion order, whose signature pattern-matches
    the arguments, and falls back to the default handler. */
module OrderedDispatch {
  import opened Values
  import opened PatternMatching

  /** The result of resolving a call: the handler that will be invoked, or the
      TypeError that `pattern_match` raised while the registry was scanned. */
  datatype Resolution<H> = Selected(handler: H) | TypeErrorRaised

  /** Where the scan of the registry stops: at the first entry that matches, at
      the first entry whose matching raised, or past the last entry. */
  datatype Scan = Found(index: nat) | RaisedAt(index: nat) | Exhausted

  /** No entry with a position in [lo, hi) matches, and none of them raised. */
  predicate NoneMatchIn(order: seq<Signature>, args: seq<Value>, sub: SubtypeRel, lo: nat, hi: nat)
    requires hi <= |order|
  {
    forall m :: lo <= m < hi ==> PatternMatch(order[m], args, sub) == NoMatch
  }

  /** The scan of `registry.items()` from position `k` on, as a reference
      definition for the loop in `Resolve`. */
  function FirstMatchFrom(order: seq<Signature>, args: seq<Value>, sub: SubtypeRel, k: nat): (s: Scan)
    requires k <= |order|
    decreases |order| - k
    ensures s.Found? ==>
      k <= s.index < |order| && PatternMatch(order[s.index], args, sub) == Match &&
      NoneMatchIn(order, args, sub, k, s.index)
    ensures s.RaisedAt? ==>
      k <= s.index < |order| && PatternMatch(order[s.index], args, sub) == NotSized &&
      NoneMatchIn(order, args, sub, k, s.index)
    ensures s.Exhausted? <==> NoneMatchIn(order, args, sub, k, |order|)
  {
    if k == |order| then Exhausted
    else
      match PatternMatch(order[k], args, sub)
      case Match => Found(k)
      case NotSized => RaisedAt(k)
      case NoMatch =>
        var rest := FirstMatchFrom(order, args, sub, k + 1);
        assert forall hi :: k < hi <= |order| ==>
          (NoneMatchIn(order, args, sub, k, hi) <==> NoneMatchIn(order, args, sub, k + 1, hi));
        rest
  }

  /** The scan stops at an entry exactly when that entry is the first one,
      in registry order, that does not fail to match. */
  lemma FirstMatchIsFirst(order: seq<Signature>, args: seq<Value>, sub: SubtypeRel, k: nat, i: nat)
    requires k <= i < |order|
    requires NoneMatchIn(order, args, sub, k, i)
    requires PatternMatch(order[i], args, sub) != NoMatch
    ensures FirstMatchFrom(order, args, sub, k) ==
      if PatternMatch(order[i], args, sub) == Match then Found(i) else RaisedAt(i)
  {
  }

  /** Appending a signature at the end gives it the lowest priority: every
      call that stopped at an existing entry still stops there, and only a
      call that fell through to the default can reach the new entry. */
  lemma {:induction false} AppendKeepsEarlierScan(order: seq<Signature>, sig: Signature, args: seq<Value>, sub: SubtypeRel, k: nat)
    requires k <= |order|
    ensures FirstMatchFrom(order + [sig], args, sub, k) ==
      if !FirstMatchFrom(order, args, sub, k).Exhausted? then FirstMatchFrom(order, args, sub, k)
      else
        match PatternMatch(sig, args, sub)
        case Match => Found(|order|)
        case NotSized => RaisedAt(|order|)
        case NoMatch => Exhausted
    decreases |order| - k
  {
    if k < |order| {
      assert (order + [sig])[k] == order[k];
      AppendKeepsEarlierScan(order, sig, args, sub, k + 1);
    } else {
      assert (order + [sig])[k] == sig;
    }
  }

  /** An entry whose signature is covered by an earlier entry's signature is
      never selected: whatever it matches, the earlier entry matched first. */
  lemma CoveredEntryIsUnreachable(order: seq<Signature>, args: seq<Value>, sub: SubtypeRel, i: nat, j: nat)
    requires IsSubtypeOrder(sub)
    requires i < j < |order|
    requires SigCovers(order[i], order[j], sub)
    ensures FirstMatchFrom(order, args, sub, 0) != Found(j)
  {
    if FirstMatchFrom(order, args, sub, 0) == Found(j) {
      CoversPreservesMatch(order[i], order[j], args, sub);
    }
  }

  /** The dispatcher object: the default handler `f` and the ordered
      dictionary, kept as its keys in insertion order and the map from each
      key to its handler. */
  class PatternDispatcher<H> {
    const default: H
    var order: seq<Signature>
    var handlers: map<Signature, H>

    /** The two fields describe one ordered dictionary: the keys are listed
        once each, and exactly the listed keys have handlers. */
    ghost predicate Valid()
      reads this
    {
      && (forall i, j :: 0 <= i < j < |order| ==> order[i] != order[j])
      && (forall s :: s in handlers <==> s in order)
    }

    /** `pmultidispatch(f)`: an empty registry around the default `f`. */
    constructor (f: H)
      ensures Valid()
      ensures default == f && order == [] && handlers == map[]
    {
      default := f;
      order := [];
      handlers := map[];
    }

    /** `register(*sig)(g)`: stores `g` under `sig` and returns `g` itself.
        A new signature goes at the end; a signature already present keeps
        its position and only its handler is replaced. */
    method Register(sig: Signature, g: H) returns (r: H)
      requires Valid()
      modifies this
      ensures Valid()
      ensures r == g
      ensures handlers == old(handlers)[sig := g]
      ensures sig in old(handlers) ==> order == old(order)
      ensures sig !in old(handlers) ==> order == old(order) + [sig]
    {
      if sig !in handlers {
        order := order + [sig];
      }
      handlers := handlers[sig := g];
      r := g;
    }

    /** `resolve(*args)`: the handler of the first entry, in registry order,
        whose signature matches the arguments; the default if none does; the
        TypeError if matching an entry before the first match raised it. */
    method Resolve(args: seq<Value>, sub: SubtypeRel) returns (r: Resolution<H>)
      requires Valid()
      ensures match FirstMatchFrom(order, args, sub, 0)
        case Found(i) => r == Selected(handlers[order[i]])
        case RaisedAt(_) => r == TypeErrorRaised
        case Exhausted => r == Selected(default)
    {
      var i := 0;
      while i < |order|
        invariant 0 <= i <= |order|
        invariant FirstMatchFrom(order, args, sub, 0) == FirstMatchFrom(order, args, sub, i)
      {
        var outcome := PatternMatch(order[i], args, sub);
        if outcome == Match {
          return Selected(handlers[order[i]]);
        } else if outcome == NotSized {
          return TypeErrorRaised;
        }
        i := i + 1;
      }
      return Selected(default);
    }
  }
}
