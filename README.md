# Multiple dispatch engine, modelled in Dafny

This project models the multiple-dispatch engine of `processing_utilities/multidispatch.py`. The engine has three parts:

- **`pattern_match(sig, instance)`** is a recursive structural matcher. A signature is a tuple of descriptors. Each descriptor is a class (matched with `isinstance`, so subclasses are accepted), the wildcard string `"ANY"`, or a nested tuple that recurses into the argument at that position. Arity must agree.
- **`pmultidispatch(f)`** is the order-sensitive dispatcher. It keeps an `OrderedDict` from signature to handler. A call selects the handler of the first entry, in insertion order, whose signature matches the arguments, and otherwise the default `f`.
- **`multidispatch(f)`** is the exact-type dispatcher. It keeps a dict keyed by the tuple of the arguments' runtime types, with the default stored under the key `'default'`. A call looks up that key exactly, with no subclasses, no wildcard and no nesting.

How the model is laid out:

- `values.dfy` (module `Values`) holds the data model. Runtime values are `Atom(typ)` or a sized collection `Tup(typ, elems)`. Descriptors are `Concrete(typ) | Any | Nested(sig)`. The subtype relation is a function value `sub(a, b)` that stands in for Python's class hierarchy.
- `pattern_match.dfy` (module `PatternMatching`) holds the matcher. It returns three outcomes: `Match`, `NoMatch`, or `NotSized`. `NotSized` is the `TypeError` that `len()` raises when a nested descriptor meets an argument without a length (`len(3)`, line 14 reached through line 19).
- `pmultidispatch.dfy` (module `OrderedDispatch`) holds the ordered dispatcher. It is a class whose `OrderedDict` is two fields: `order`, the keys in insertion order, and `handlers`, the map from key to handler. `Resolve` is a loop over the entries, proved against a recursive reference scan `FirstMatchFrom`.
- `multidispatch.dfy` (module `ExactDispatch`) holds the exact dispatcher. It is a class whose registry is a `map<Key, H>`. `Key` is either `DefaultKey` (the string `'default'`) or `TypesKey(types)`.
- `scenarios.dfy` (module `Scenarios`) restates the repository's tests on a small builtin hierarchy: `bool` derives from `int`, and every class derives from `object`.

Handlers are a type parameter `H`, so they are opaque to the engine. Dispatch is modelled as "resolve, then hand back the selected handler".

Two behaviours of the code are easy to misread, and the model states both:

- **Re-registering a signature with `pmultidispatch`.** The registration writes into the `OrderedDict` (line 64), which replaces the handler and keeps the key in its original position. The registry never holds two entries for one signature. `PatternDispatcher.Register` and `Scenarios.PatternReRegisterScenario` state this.
- **A nested descriptor against a plain value.** `len()` of a value without a length raises `TypeError` (lines 14, 19). The error propagates out of `resolve` and ends the scan, even when a later entry would match. This is `RaisedAt`/`TypeErrorRaised` in the model, and `Scenarios.RaisingScenario` shows it.

## Model

| member | source | states |
|---|---|---|
| PatternMatching.PatternMatch | processing_utilities/multidispatch.py:5-28 | Different arity gives False. The match is True exactly when every position matches. Otherwise the outcome (False, or the raised TypeError) is that of the first position that does not match. |
| PatternMatching.MatchEach | processing_utilities/multidispatch.py:17-28 | For equal lengths, the loop returns True exactly when all positions match. Otherwise it returns the outcome of the first failing position, with every earlier position matching. |
| PatternMatching.MatchDesc | processing_utilities/multidispatch.py:18-27 | "ANY" matches any value. A class matches exactly its instances and the instances of its subclasses, and never raises. A nested tuple raises against a value without a length. It matches a collection exactly when the lengths agree and each inner position matches; a length mismatch gives False. Otherwise the outcome is that of the first inner position that does not match, so an inner position's TypeError propagates. |
| PatternMatching.MatchCons | processing_utilities/multidispatch.py:17-27 | A first position that fails decides the whole match. A first position that matches lets matching continue with the remaining positions. |
| PatternMatching.FirstFailureDecides | processing_utilities/multidispatch.py:17-27 | If every position before k matches and position k does not, the whole match has position k's outcome. |
| PatternMatching.AnyIgnoresValue | processing_utilities/multidispatch.py:23-24 | Replacing the argument at an "ANY" position by any value, a tuple included, leaves the outcome of the whole match unchanged. |
| PatternMatching.CoversPreservesMatch | processing_utilities/multidispatch.py:17-28 | A signature that covers another matches every argument tuple the covered one matches. Covering means a wildcard, a superclass, or a nested tuple covering position by position. |
| PatternMatching.DescCoversPreservesMatch | processing_utilities/multidispatch.py:18-27 | A descriptor that covers another matches every value the covered one matches. |
| OrderedDispatch.FirstMatchFrom | processing_utilities/multidispatch.py:49-52 | The scan from position k stops at an entry that matches, with no entry before it matching or raising. Or it stops at an entry that raises, with the same condition before it. It runs past the end exactly when no entry matches or raises. |
| OrderedDispatch.FirstMatchIsFirst | processing_utilities/multidispatch.py:49-52 | Converse of the above: the first entry that does not fail to match is exactly where the scan stops. |
| OrderedDispatch.AppendKeepsEarlierScan | processing_utilities/multidispatch.py:43-52 | Appending a signature keeps every call that stopped at an existing entry where it was. Only a call that fell through can reach the new entry, which has the lowest priority. |
| OrderedDispatch.CoveredEntryIsUnreachable | processing_utilities/multidispatch.py:35-38 | An entry whose signature is covered by an earlier entry's signature is never selected. |
| OrderedDispatch.PatternDispatcher.constructor | processing_utilities/multidispatch.py:43-44 | A new dispatcher has an empty ordered registry and the given default. |
| OrderedDispatch.PatternDispatcher.Register | processing_utilities/multidispatch.py:60-66 | Returns the handler unchanged. A new signature is appended at the end. A signature already present keeps its position, and only its handler is replaced. Nothing else changes, and the registry invariant (keys once each) holds. |
| OrderedDispatch.PatternDispatcher.Resolve | processing_utilities/multidispatch.py:46-52 | Returns the handler of the first entry in registry order whose signature matches. It reports the TypeError if an earlier entry raised, and returns the default when nothing matches. It does not change the registry. |
| ExactDispatch.RuntimeTypes | processing_utilities/multidispatch.py:92 | The lookup key has one runtime type per argument, in order. |
| ExactDispatch.RuntimeTypesIsTheKey | processing_utilities/multidispatch.py:92-94 | A type tuple equals the lookup key of a call exactly when the arguments have exactly those runtime types. |
| ExactDispatch.ExactIsPatternWithSameType | processing_utilities/multidispatch.py:25-27 | Exact lookup equals pattern matching of a flat class signature with `isinstance` replaced by type identity. Both directions are proved. |
| ExactDispatch.FlatPatternAcceptsSubtypes | processing_utilities/multidispatch.py:25-27 | A flat class signature pattern-matches exactly when the arities agree and each argument's type derives from the class at its position. |
| ExactDispatch.ExactKeyImpliesPatternMatch | processing_utilities/multidispatch.py:92-94 | Arguments that hit an exact key are also matched by the same classes registered as a pattern. |
| ExactDispatch.TypeDispatcher.constructor | processing_utilities/multidispatch.py:87 | A new registry holds only the default under the 'default' key. |
| ExactDispatch.TypeDispatcher.Register | processing_utilities/multidispatch.py:97-103 | Returns the handler unchanged and inserts or overwrites the key. The default handler is never replaced. |
| ExactDispatch.TypeDispatcher.Resolve | processing_utilities/multidispatch.py:89-94 | Every registered key typed exactly like the arguments selects its handler. When no registered key has exactly the arguments' runtime types, the result is the default. |
| Scenarios.PySubclassIsSubtypeOrder | processing_utilities/multidispatch.py:25 | The builtin hierarchy used in the scenarios is reflexive and transitive. |
| Scenarios.PatternMatchTests | processing_utilities/tests/test_multidispatch.py:4-10 | The five assertions of the matcher test hold. `len(3)` under a nested descriptor raises, and an empty signature matches the empty argument tuple. |
| Scenarios.DeepRaisePropagates | processing_utilities/multidispatch.py:14-21 | `((int, (int,)),)` against `((1, 2),)` raises the TypeError of `len(2)` from the inner position rather than returning False. |
| Scenarios.Pair | processing_utilities/multidispatch.py:17-27 | A two-position match decides on the first position unless it matches, and then on the second. |
| Scenarios.Single | processing_utilities/multidispatch.py:17-28 | A one-position match has the outcome of that position. |
| Scenarios.NestedPair | processing_utilities/multidispatch.py:18-22 | `((T1, T2),)` matches `((v1, v2),)` exactly when each inner value is an instance of its class. An inner tuple of another length never matches. |
| Scenarios.ScanStrStr | processing_utilities/tests/test_multidispatch.py:38-39 | `concat('1', '2')` matches no entry. |
| Scenarios.ScanStrInt | processing_utilities/tests/test_multidispatch.py:41-42 | `concat('1', 3)` stops at the second entry. |
| Scenarios.ScanIntInt | processing_utilities/tests/test_multidispatch.py:44-45 | `concat(1, 3)` stops at the third entry. |
| Scenarios.ScanIntStr | processing_utilities/tests/test_multidispatch.py:47-48 | `concat(1, '3')` stops at the first entry. |
| Scenarios.PatternConcatScenario | processing_utilities/tests/test_multidispatch.py:13-48 | Stacked registration installs `(int, str)` before `(str, int)`. The four calls select the default, the stacked handler, the `(int, int)` handler and the stacked handler. |
| Scenarios.ExactConcatScenario | processing_utilities/tests/test_multidispatch.py:69-104 | The same registrations on the exact dispatcher select the same four handlers. |
| Scenarios.SubclassScenario | processing_utilities/multidispatch.py:25-27 | Two `bool` arguments reach the `(int, int)` handler of the pattern dispatcher but the default of the exact dispatcher. |
| Scenarios.PatternReRegisterScenario | processing_utilities/multidispatch.py:64 | Registering one signature twice leaves a single ordered entry, and a call resolves to the second handler. |
| Scenarios.ExactReRegisterScenario | processing_utilities/multidispatch.py:101 | Registering one type tuple twice leaves the second handler active. |
| Scenarios.RaisingScenario | processing_utilities/multidispatch.py:14-19 | A nested entry met by a plain argument raises before a later matching entry is reached. |

## Left out

- Invoking the selected handler, forwarding `*args`/`**kwargs`, and the metadata copying of `functools.wraps` (lines 54-58, 89-95). Handlers are opaque, and keyword arguments play no part in resolution.
- ExactDispatch.TypeDispatcher.Register: only tuples of classes are modelled as exact keys. `register(*typesig)` accepts any tuple (lines 97-101), including `"ANY"` or nested tuples, but such a key never equals `tuple(type(arg) for arg in args)`, so it is a dead entry that changes no resolution.
- The real class hierarchy. It is replaced by the relation parameter `sub`; the lemmas that need it assume only reflexivity and transitivity.
- Strings as sized sequences. In Python a `str` argument under a nested descriptor is iterated character by character. Here a string is an `Atom`, so it gives `NotSized`.
- The `TypeError`s for malformed descriptors, such as a string other than "ANY" passed to `isinstance`. The closed `Desc` datatype cannot express them.
- `geometry.py` and `iterators.py`: floating-point numerics and thin wrappers over `itertools`, outside the dispatch engine.
- The recursive `distance` tests (tests/test_multidispatch.py:51-66, 107-122). They depend on floating-point `sqrt` and on calling handlers.
- Concurrency. The code has none; the registry is unsynchronised closure state.
