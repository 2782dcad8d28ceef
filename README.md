# Koin scope lifecycle and definition context, in Dafny

This project models the scope core of the Koin service locator (Kotlin). It
covers two source files.

- `Scope` (`scope/Scope.kt`) is a named lifetime container. Its owner
  reference `koin` is the liveness flag. It keeps an ordered list of close
  callbacks and has a fixed close protocol: release from the scope set,
  delete from the owner, drop the owner, notify each callback in order,
  clear the list.
- `DefinitionContext` (`definition/DefinitionContext.kt`) is a sealed type
  with two variants. It hands each lookup to the resolver together with
  "the current scope": the global scope for `DefaultContext`, its own scope
  for `ScopedContext`.

Files:

- `base.dfy` (module `Base`): error kinds, `Result`, `Option`, and opaque
  stand-ins for instances, type tokens, qualifiers and parameter suppliers.
- `scope.dfy` (module `Scopes`):
  - the collaborators `Koin`, `ScopeSet` and `ScopeCallback`;
  - the pure state model `ScopeState` with one transition per operation, and
    `Run` for sequences of operations;
  - the display string with a parser that proves it readable;
  - the class `Scope`, whose methods are proved against the pure transitions;
  - `LazyInstance`, the cell `inject` returns.
- `definition_context.dfy` (module `Definitions`): the datatype
  `DefinitionContext`, `Scope.getContext`, the lemmas relating the two
  components, and three client walkthroughs (`CloseTwiceScenario`,
  `ClosedScopeScenario`, `PropertyScenario`).

How the collaborators are modelled:

- The resolver is the class `Koin`.
  - Resolution (`resolve`) and property lookup (`property`) are
    uninterpreted function-valued constants.
  - The live-scope table is a map from id to scope. `GetScope` reads it and
    `DeleteScope` removes an entry.
- The scope set, the resolver and the callbacks all record the calls made on
  them in one shared `Trace`. This makes the order of the close steps across
  all three a single sequence, `CloseEvents`.
- As a modelling choice, `getScope`, `get` and `getProperty` of the resolver
  are treated as reads that give the same answer to the same request, so the
  context's operations are functions. In Koin, `get` may build a new instance
  on each call (a factory definition does). The `KClass` form `koin.get(T::class,
  qualifier, scope, parameters)` called by `Scope.get` and the reified form
  `koin.get(qualifier, scope, parameters)` called by the context are both the
  single function `Koin.resolve`.
- Scope.kt's field `set` is called `scopeSet`, because `set` is a Dafny
  keyword.
- `Scope.GLOBAL` is a process-wide singleton. A Dafny constant cannot hold an
  object, so `DefaultContext` carries that scope. `WellFormed` states that
  its id is `-GLOBAL-` and that it has no set. `NewGlobalScope` builds it.
- `Scope.getContext` returns a `DefinitionContext`, and that type refers back
  to `Scope`. To avoid a module cycle, `getContext` is
  `Definitions.GetContext`.

Where one might expect stronger guarantees than the code gives, the model
follows the code:

- Every `close` calls `set.release`, including a second close. Only the
  delete call and the notifications are skipped on later closes
  (`SecondCloseIsQuiet`).
- A closed scope is not terminal. Nothing stops `register` from giving it an
  owner again: `OwnerOnlyFromRegister` and `GetFailsAfterClose` need "no
  later register".
- Kotlin's `lazy` keeps a computed value but not a thrown exception. A failed
  read of an `inject` cell is retried on the next read (`LazyInstance.Value`).
  A value cached before `close` is still returned after it.
- `DefinitionContext.get` performs no liveness check on the scope it passes
  (`ContextSkipsLivenessCheck`).
- `getProperty` fails whenever the resolver answers null. A stored null
  cannot be told apart from a missing key.

## Model

| member | source | states |
|---|---|---|
| `Scopes.Scope.constructor` | koin-projects/koin-core/src/main/kotlin/org/koin/core/scope/Scope.kt:26-32 | A new scope has the given id and set, no owner, no callbacks and empty properties. |
| `Scopes.Scope.Register` | koin-projects/koin-core/src/main/kotlin/org/koin/core/scope/Scope.kt:37-44 | After `register(k)` the owner is `k` and `IsRegistered()` holds (owner present). Id, set, callbacks and properties are unchanged. |
| `Scopes.Scope.IsRegistered` | koin-projects/koin-core/src/main/kotlin/org/koin/core/scope/Scope.kt:37 | `isRegistered` holds exactly when the scope's state has an owner. `Register` makes it true and `Close` makes it false (their `ensures`). |
| `Scopes.Scope.RegisterCallback` | koin-projects/koin-core/src/main/kotlin/org/koin/core/scope/Scope.kt:73-75 | The callback is appended at the end, without deduplication. Earlier entries and the rest of the state are unchanged. |
| `Scopes.RegisteringCallbacks` | koin-projects/koin-core/src/main/kotlin/org/koin/core/scope/Scope.kt:73-75 | Registering `cs` one by one leaves the list as the old list followed by `cs`, in order, and calls no collaborator. |
| `Scopes.Scope.Close` | koin-projects/koin-core/src/main/kotlin/org/koin/core/scope/Scope.kt:80-88 | The new state is `Closed(old)`: no owner, no callbacks, same id, set and properties. The trace gains exactly `CloseEvents(old)`. The old owner's live-scope table loses this id. Afterwards `IsRegistered()` is false. |
| `Scopes.CloseStepOrder` | koin-projects/koin-core/src/main/kotlin/org/koin/core/scope/Scope.kt:80-88 | Close makes `Lead + |callbacks|` calls. The release comes first when a set is linked. The delete comes next, and only when an owner was present. Then comes one `onScopeClose` per callback, in list order. |
| `Scopes.NotificationsInOrder` | koin-projects/koin-core/src/main/kotlin/org/koin/core/scope/Scope.kt:86 | Notifying a list makes one call per callback, and call `i` goes to callback `i`. |
| `Scopes.SecondCloseIsQuiet` | koin-projects/koin-core/src/main/kotlin/org/koin/core/scope/Scope.kt:81-87 | Closing a closed scope leaves the state as it is. Its only call is the unconditional `set.release`: no delete and no notification. |
| `Scopes.RegisterThenClose` | koin-projects/koin-core/src/main/kotlin/org/koin/core/scope/Scope.kt:73-88 | Registering callbacks on a scope without any, then closing it, makes exactly the close calls of a scope holding those callbacks. It ends in the closed state. |
| `Scopes.CallbacksNotifiedInRegistrationOrder` | koin-projects/koin-core/src/main/kotlin/org/koin/core/scope/Scope.kt:73-87 | Callbacks registered in the order `c1..cn` are notified by the next close exactly once each, in that order, after the release and delete calls. |
| `Scopes.OwnerOnlyFromRegister` | koin-projects/koin-core/src/main/kotlin/org/koin/core/scope/Scope.kt:42-88 | From a scope without owner, no sequence of operations without `register` gives it an owner, and none changes its id or set. |
| `Scopes.GetIn` | koin-projects/koin-core/src/main/kotlin/org/koin/core/scope/Scope.kt:62-68 | `get` succeeds exactly when an owner is present and the resolver yields an instance, and then returns that instance. No owner, or a null from the resolver, gives `ScopeIsClosed("Scope <display> is closed")`. A resolver failure propagates unchanged. |
| `Scopes.Scope.Get` | koin-projects/koin-core/src/main/kotlin/org/koin/core/scope/Scope.kt:62-68 | On an unregistered scope, `get` fails with the closed-scope message built from `toString`. A success is the resolver's own answer for this scope. |
| `Scopes.GetFailsAfterClose` | koin-projects/koin-core/src/main/kotlin/org/koin/core/scope/Scope.kt:62-88 | After a close and any later operations other than `register`, every `get` fails with the closed-scope exception naming the scope. |
| `Scopes.Display` | koin-projects/koin-core/src/main/kotlin/org/koin/core/scope/Scope.kt:94-97 | The display string starts with `Scope[id:'` and ends with `]`. |
| `Scopes.Scope.ToString` | koin-projects/koin-core/src/main/kotlin/org/koin/core/scope/Scope.kt:94-97 | `toString` starts with `Scope[id:'`. For an id without a quote, the parser reads back this scope's id and its set's qualifier (none when no set is linked). |
| `Scopes.DisplayRoundTrip` | koin-projects/koin-core/src/main/kotlin/org/koin/core/scope/Scope.kt:94-97 | For an id without a quote, the id and the set qualifier can be read back from the display string. So the format is `Scope[id:'<id>']` or `Scope[id:'<id>',set:'<qualifier>']`, and nothing else. |
| `Scopes.DisplayExamples` | koin-projects/koin-core/src/main/kotlin/org/koin/core/scope/Scope.kt:94-101 | The exact strings for an id alone, for the global id `-GLOBAL-`, and for an id with a set. |
| `Scopes.Scope.Inject` | koin-projects/koin-core/src/main/kotlin/org/koin/core/scope/Scope.kt:51-55 | `inject` returns a new cell bound to this scope and request, with nothing resolved yet. |
| `Scopes.LazyInstance.Value` | koin-projects/koin-core/src/main/kotlin/org/koin/core/scope/Scope.kt:55 | The first read performs `get` at that moment and caches only a success. Later reads return the cached instance unchanged. |
| `Scopes.NewGlobalScope` | koin-projects/koin-core/src/main/kotlin/org/koin/core/scope/Scope.kt:99-102 | `GLOBAL` is a scope with id `-GLOBAL-`, no set, no owner and no callbacks. |
| `Definitions.GetContext` | koin-projects/koin-core/src/main/kotlin/org/koin/core/scope/Scope.kt:90-92 | `getContext` succeeds exactly when the scope is registered. It then gives a `ScopedContext` over the scope's owner whose current scope is this scope. Otherwise it fails with `IllegalState("Scope '<display>' is not registered")`. |
| `Definitions.DefinitionContext.CurrentScope` | koin-projects/koin-core/src/main/kotlin/org/koin/core/definition/DefinitionContext.kt:64-70 | `DefaultContext` returns the global scope, whose id is `-GLOBAL-` when well formed. `ScopedContext` returns the scope it was built with. |
| `Definitions.DefinitionContext.Get` | koin-projects/koin-core/src/main/kotlin/org/koin/core/definition/DefinitionContext.kt:21-26 | The implicit `get` hands the resolver a request at the global scope for `DefaultContext` and at its own scope for `ScopedContext`, and returns the answer unchanged. |
| `Definitions.DefinitionContext.GetWithScope` | koin-projects/koin-core/src/main/kotlin/org/koin/core/definition/DefinitionContext.kt:34-40 | The explicit-scope `get` ignores the context's own scope: its answer is what a context scoped to the given scope returns from the implicit `get`. |
| `Definitions.DefaultContextResolvesGlobally` | koin-projects/koin-core/src/main/kotlin/org/koin/core/definition/DefinitionContext.kt:64-66 | A default context's `get` is the resolver's answer for the global scope. |
| `Definitions.ImplicitGetIsExplicitAtCurrentScope` | koin-projects/koin-core/src/main/kotlin/org/koin/core/definition/DefinitionContext.kt:21-40 | The implicit-scope `get` equals the explicit-scope `get` at `currentScope()`. |
| `Definitions.ScopedGetIsDefaultGetWithScope` | koin-projects/koin-core/src/main/kotlin/org/koin/core/definition/DefinitionContext.kt:21-40 | `ScopedContext(S).get` equals `DefaultContext.get` with `S` passed explicitly. |
| `Definitions.ContextSkipsLivenessCheck` | koin-projects/koin-core/src/main/kotlin/org/koin/core/definition/DefinitionContext.kt:21-26 | Over a scope without owner, the scope's own `get` fails as closed. A context over that scope still hands the request to the resolver. |
| `Definitions.ContextOfScopeAgreesWithScopeGet` | koin-projects/koin-core/src/main/kotlin/org/koin/core/scope/Scope.kt:62-92 | For a registered scope, `getContext().get` yields an instance `v` exactly when the scope's `get` returns `v`. |
| `Definitions.DefinitionContext.GetFromScope` | koin-projects/koin-core/src/main/kotlin/org/koin/core/definition/DefinitionContext.kt:45-51 | A live id resolves against the scope the resolver holds for it. An unknown id yields the resolver's `UnknownScope` failure, unchanged. |
| `Definitions.GetFromLiveScope` | koin-projects/koin-core/src/main/kotlin/org/koin/core/definition/DefinitionContext.kt:45-51 | Looking a live scope up by its own id resolves against that very scope. |
| `Definitions.DefinitionContext.GetProperty` | koin-projects/koin-core/src/main/kotlin/org/koin/core/definition/DefinitionContext.kt:58-61 | `getProperty` succeeds exactly when the resolver's lookup (with the default) is non-null, and returns that value. Otherwise it fails with `MissingProperty("Property '<key>' is missing")`. |

## Left out

- The `synchronized(this)` around `close` is left out. Close is one sequential method, and races between closes or with `get` are not modelled.
- Resolver internals are left out: how `Koin.get`, `getScope`, `getProperty` and `deleteScope` work. Resolution and property lookup are uninterpreted. `getScope` answers from a map and fails with `UnknownScope(id)`, not with the resolver's own exception message.
- `Koin.DeclareScope` stands in for the resolver's scope creation, which is not part of this model.
- The internals of `ScopeSet.release` are not modelled, only the fact of the call. The `Properties` class is a map that no modelled operation changes. Data-class `equals`/`hashCode` are left out.
- Reified generics and `T::class` are replaced by an explicit `TypeTag`. Qualifiers and `ParametersDefinition` closures are opaque values passed through unchanged.
- The thread-safety mode of Kotlin's `lazy` is left out. `LazyInstance` is a single-threaded cell.
- Exceptions thrown by callbacks are not modelled: `onScopeClose` always returns. In the code, a throwing callback ends the `forEach`. Later callbacks are then not notified and the list is not cleared, although the owner has already been dropped.
- `Scopes.Scope.Get`: the `ensures` states only the no-owner case and what a success means. The full case split (null or failure from the resolver) is stated on `Scopes.GetIn`, which `Get` calls on its current state.
- `Definitions.ContextOfScopeAgreesWithScopeGet` and `Definitions.ScopedGetIsDefaultGetWithScope` equate the answers of two separate resolver calls. They rest on the modelling choice that both forms of `Koin.get` are one resolution, `Koin.resolve`, with the same answer for the same request. In Koin, a factory definition gives a new instance on each call, so the two calls agree only on the request they pass, not on the identity of the instance returned.
