# require-thunk, modelled in Dafny

require-thunk lets test code intercept `require` calls for selected module
identifiers and hand back a substitute value in place of the real module.
`enableThunking(targets, handler)` patches the loader. From then on, a load
of a selected id calls the handler once with `(id, realExports)`. The
handler's result is marked `__thunked`, cached under the id and returned on
every later load. `clearThunkCache` invalidates all entries, one entry or a
list of entries. `disableThunking` restores the original loader and empties
the cache.

The model is a pure state machine over an immutable `State`:

- `Selection`: identifiers, the wildcard `"*"`, the `targets` argument
  (`Single` string or `List`), and the selection predicate. It includes an
  executable scan that mirrors `Array.prototype.includes`.
- `ThunkCache`: the `Export` tag (`Plain` is the loader's own value,
  `Thunked` is a marked handler result), the flat cache map, and cache
  clearing.
- `RequireThunk`: the session flag (`Inactive` or
  `Active(selections, handler, calls)`), the state, and the four
  transitions `Enable`, `Require` (the installed `thunkedRequire`),
  `ClearThunkCache` and `Disable`. It also holds the session invariant
  `Valid` and the lemmas showing that each transition preserves it.
- `Trace`: runs sequences of operations. It proves the at-most-once
  guarantee: between two invalidations of an id, the handler yields a
  substitute for that id at most once, provided the loader and the handler
  do not themselves call `require`. It also proves that a cached value stays
  stable.
- `Scenarios`: the repository's jest tests, restated as concrete runs.

The original loader is a parameter `load: Id -> V`. The handler is a
function value stored with the session. Its type is
`(calls, id, exports) -> Returned(v) | Threw(reason)`. `calls` is the
number of earlier invocations in the session, which lets a stateful mock
(one that returns a new object per call) be written as a pure function.
Every state carries `log`, the list of all handler invocations so far.
The log records each call's id, exports and outcome, so lemmas can count
the calls per id.

Facts about the code that the model keeps:

- A second `enableThunking` throws a plain `Error` ("require is already
  patched - cannot rethunk.", src/index.ts:63). It is modelled as
  `AlreadyPatched`.
- An empty targets list is accepted and selects nothing.
- `disableThunking` in an unpatched process returns without touching the
  cache (src/index.ts:102-105). In the model the cache is already empty
  then, because every reachable model state satisfies the invariant `Valid`.
  The code gives no such guarantee when a handler or a loaded module calls
  the provider itself (see "## Left out").

## Model

| member | source | states |
|---|---|---|
| Selection.IsSelected | src/index.ts:67 | a list holding `"*"` selects every id; without `"*"`, an id is selected iff it is listed exactly |
| Selection.Includes | src/index.ts:67 | the left-to-right `includes` scan finds `x` iff `x` occurs in the list |
| Selection.Selected | src/index.ts:67 | the `isSelected` closure (wildcard test, then exact test) agrees with the selection predicate |
| Selection.SingleTargetSelects | src/index.ts:66-67 | a single target string behaves as the one-element list holding it: it selects an id iff it is `"*"` or that very id |
| ThunkCache.DeleteEach | src/index.ts:95-97 | deleting a list of ids one by one removes exactly the listed keys and keeps the other values |
| ThunkCache.Clear | src/index.ts:89-99 | no argument empties the cache; one id or a list removes exactly those keys; surviving entries keep their values |
| ThunkCache.ClearSingleAsList | src/index.ts:92-97 | clearing one id is the same as clearing the one-element list holding it |
| RequireThunk.Init | src/index.ts:51-56 | at module load the process is unpatched with an empty cache and no handler calls, and the invariants hold |
| RequireThunk.Enable | src/index.ts:58-87 | enabling while patched fails with `AlreadyPatched` and leaves the whole state unchanged; otherwise it succeeds and starts a session with the given handler and intercepts exactly the ids the targets select |
| RequireThunk.Require | src/index.ts:69-86 | a non-intercepted load returns the loader's value unmarked and changes nothing; a cache hit returns the cached value and changes nothing; a miss calls the handler once with `(id, load(id))` and stores and returns its result marked, touching no other entry; a throwing handler stores nothing |
| RequireThunk.ClearThunkCache | src/index.ts:89-99 | clearing never fails and changes neither the session nor the log; it removes exactly the named keys (all keys with no argument) |
| RequireThunk.Disable | src/index.ts:101-109 | disabling always ends unpatched; from a patched state the cache becomes empty; when unpatched it is a no-op |
| RequireThunk.DisableEmptiesCache | src/index.ts:101-109 | in every valid state, disabling leaves no session and an empty cache, and a second disable changes nothing |
| RequireThunk.EnablePreservesValid | src/index.ts:62-69 | enabling preserves the session invariants |
| RequireThunk.RequirePreservesValid | src/index.ts:72-85 | a load preserves the session invariants: only selected ids get cached, and always marked |
| RequireThunk.ClearPreservesValid | src/index.ts:89-99 | clearing preserves the session invariants |
| RequireThunk.DisablePreservesValid | src/index.ts:101-109 | disabling preserves the session invariants |
| RequireThunk.RequireResultMarked | src/index.ts:72-85 | a successful load returns a marked value iff the id is intercepted; an unmarked value is the loader's own |
| RequireThunk.EnableTwiceFails | src/index.ts:62-64 | a second enable fails and leaves the first session's selection, handler, cache and log exactly as they were |
| RequireThunk.ClearedIdReinvokesHandler | src/index.ts:72-99 | after clearing an intercepted id (or everything), the next load of that id makes a new handler call for it |
| Trace.Apply | src/index.ts:58-109 | every public operation and every load preserves the session invariants |
| Trace.Run | src/index.ts:56-109 | running any sequence of operations gives one reply per operation, only extends the handler log, and keeps the invariants |
| Trace.CachedIdNeverReinvokes | src/index.ts:72-74 | once an id is cached, a run that neither clears it nor disables keeps its cached value and makes no further handler call for it |
| Trace.HandlerAtMostOncePerId | src/index.ts:72-85 | between two clears of an id (no clear naming it and no disable), the handler returns a substitute for it at most once |
| Trace.CachedLoadsAgree | src/index.ts:72-74 | in such a run every load of a cached id returns the same cached value |
| Scenarios.CannotThunkTwice | src/__tests__/index.spec.ts:18-22 | enable, enable again (fails, state unchanged), disable (back to the initial state) |
| Scenarios.UnthunkIsSilent | src/__tests__/index.spec.ts:24-26 | disabling an unpatched process twice succeeds and changes nothing |
| Scenarios.ThunksModules | src/__tests__/index.spec.ts:28-45 | with `"*"`, loading `net` returns the handler's value marked, after exactly one call made with `net`'s real exports |
| Scenarios.CachesThunkedModules | src/__tests__/index.spec.ts:47-65 | three loads of `net` return the same value, with one handler call |
| Scenarios.IgnoresUnselectedModules | src/__tests__/index.spec.ts:67-76 | with target `http`, loading `net` returns its real exports with no handler call |
| Scenarios.ThunksMultipleModules | src/__tests__/index.spec.ts:78-91 | with `["http", "https"]`, `net` and `http2` load untouched while `http` and `https` are substituted after two handler calls |
| Scenarios.PurgeEverything | src/__tests__/index.spec.ts:105-108 | a full clear makes the next load of `net` call the handler again |
| Scenarios.PurgeSingle | src/__tests__/index.spec.ts:109-112 | clearing `net` alone re-invokes the handler for it; `http` and `https` get the next two values |
| Scenarios.PurgeList | src/__tests__/index.spec.ts:113-126 | clearing `["http"]` re-invokes the handler for `http` only; `https` keeps its value; six handler calls in all |
| Scenarios.ThrowingHandlerCachesNothing | src/index.ts:82-84 | a handler that throws leaves nothing cached, so the next load calls it again |

## Left out

- Monkey-patching `Module.prototype.require` and forwarding `this` and `arguments` with `apply` (src/index.ts:69, 76). The patch is the session flag and the loader is the function `load`. Because `this` is not forwarded, the real value depends on the id alone. In the source, `originalRequire.apply(this, …)` resolves a relative id against the requiring module, so `require('./config')` from two directories loads two different modules, while the cache (:72, :84) still keys both under one string. "Patched" means "a session is active", so a third party patching `require` is not modelled.
- RequireThunk.Require: the loader and the handler never call `enableThunking`, `clearThunkCache` or `disableThunking`. In the source, the handler runs at src/index.ts:82, before its result is marked and stored at :83-84, and the module code run by `originalRequire.apply` at :76 can call the provider too. A handler that calls `disableThunking()` restores the loader and clears the cache, and then :84 stores `id` anyway. The process is then unpatched with a non-empty cache, which breaks the invariant `Valid`. A later `enableThunking` whose selection holds `id` returns that stale entry at :72-73 and never calls its own handler. A handler that calls `clearThunkCache()` empties the other entries during a miss, so "touching no other entry" does not hold in the code then.
- RequireThunk.Require: the loader `load` and the handler never re-enter `require`. In the source, `originalRequire.apply` (src/index.ts:76) runs the loaded module's code, and the handler's code runs too. Every `require` inside either goes back through the patched `thunkedRequire`. The model loses two behaviours because of this. First, a load that is not intercepted can still change the state: with the selection `['db']`, loading a module whose code requires `db` calls the handler and caches `db`, but the contract says a pass-through load changes nothing. Second, a cyclic load can run the handler twice for one id (see the next line).
- Trace.HandlerAtMostOncePerId: holds only for loaders and handlers that do not re-enter `require`. With the selection `['./a']`, suppose `a` requires `b` and `b` requires `./a`. The nested load of `./a` misses the cache, because src/index.ts:84 has not run yet. It calls the handler with the partial exports of `a` and caches the result. The outer load then calls the handler a second time and overwrites the entry. That is two handler calls for one id with no clear in between.
- Loader failures: `load` is total. If the real `require` throws for an unknown module, the source propagates the error with no state change, which the model does not represent.
- The in-place write `result.__thunked = true` (src/index.ts:83) becomes the `Thunked` tag. Aliasing is outside the model: a handler that returns the real exports object marks the real module too. So is the `TypeError` raised when the handler returns a primitive such as `undefined`.
- Aliasing of the targets array: the session keeps a reference to the caller's array, so the caller can mutate the selection later. The model copies the list.
- RequireThunk.Handler: a handler's result may depend only on the id, the real exports and the number of earlier calls in the session. It cannot depend on arbitrary outside state. That is enough for every scenario in the tests.
- Trace.HandlerAtMostOncePerId: counts handler calls that returned. A handler that throws caches nothing, so the next load calls it again, exactly as the source does.
- scripts/post-build.js (build-time file formatting) and index.d.ts (type declarations only) hold no behaviour.
- The jest mock machinery of the tests. Its mocks appear only as the handlers `Counting`, `Constant` and `Throwing`.
