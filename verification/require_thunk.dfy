/** The interception state machine: the process-wide session flag, the thunk
    cache, and the four transitions `enableThunking`, the patched `require`,
    `clearThunkCache` and `disableThunking`.

    The original loader is the parameter `load` (it is captured once and never
    changes), and the caller's handler is a pure function value stored with the
    session. Every state carries the log of handler invocations so far.
 */
module RequireThunk {
  import opened Selection
  import opened ThunkCache

  /** The two ways an operation can fail. */
  datatype Error =
    | AlreadyPatched           // enabling while a session is active
    | HandlerThrew(reason: string)

  datatype Result<T> = Ok(value: T) | Err(error: Error)

  /** What one handler invocation did: returned a substitute, or threw. */
  datatype Outcome<V> = Returned(value: V) | Threw(reason: string)

  /** The caller's handler. Besides the identifier and the genuine exports it
      receives the number of times it was already invoked in this session, so
      a handler with state of its own (one returning a fresh object per call)
      is still a pure function here. */
  type Handler<!V> = (nat, Id, V) -> Outcome<V>

  /** One handler invocation: the id, the genuine exports passed, the outcome. */
  datatype Call<V> = Call(id: Id, exports: V, outcome: Outcome<V>)

  /** The session flag. Inactive means `require` is the original loader;
      Active holds the selection list, the handler and its invocation count. */
  datatype Session<!V> =
    | Inactive
    | Active(selections: seq<Id>, handler: Handler<V>, calls: nat)

  /** The whole module state; `log` records every handler invocation ever made. */
  datatype State<!V> = State(session: Session<V>, cache: Cache<V>, log: seq<Call<V>>)

  /** A transition's new state together with what the caller sees. */
  datatype Step<!V, R> = Step(state: State<V>, result: Result<R>)

  /** The session invariants: no cache outside a session, only selected ids
      cached inside one, and every cached value carries the marker. */
  predicate Valid<V>(s: State<V>)
  {
    && (s.session.Inactive? ==> s.cache == map[])
    && (s.session.Active? ==> forall id :: id in s.cache ==> IsSelected(s.session.selections, id))
    && (forall id :: id in s.cache ==> s.cache[id].Thunked?)
  }

  /** True when a `require` of `id` goes through the handler and the cache. */
  predicate Intercepts<V>(s: State<V>, id: Id)
  {
    s.session.Active? && IsSelected(s.session.selections, id)
  }

  /** The state at module load: not patched, nothing cached, no calls yet. */
  function Init<V>(): (s: State<V>)
    ensures Valid(s)
    ensures s.session.Inactive? && |s.cache| == 0 && |s.log| == 0
  {
    State(Inactive, map[], [])
  }

  /** `enableThunking`: refused while patched, otherwise starts a session
      whose selection list is the targets argument read as a list. */
  function Enable<V>(s: State<V>, targets: Targets, handler: Handler<V>): (r: Step<V, ()>)
    ensures s.session.Active? <==> r.result == Err(AlreadyPatched)
    ensures s.session.Active? ==> r.state == s
    ensures s.session.Inactive? ==> r.result == Ok(())
    ensures s.session.Inactive? ==>
      && r.state.session.Active?
      && r.state.session.handler == handler
      && r.state.session.calls == 0
      && (forall id :: Intercepts(r.state, id) <==> Wildcard in AsList(targets) || id in AsList(targets))
      && r.state.cache == s.cache
      && r.state.log == s.log
  {
    if s.session.Active? then
      Step(s, Err(AlreadyPatched))
    else
      Step(s.(session := Active(AsList(targets), handler, 0)), Ok(()))
  }

  /** The patched `require` of `id` (the original one while inactive). */
  function Require<V>(s: State<V>, load: Id -> V, id: Id): (r: Step<V, Export<V>>)
    // pass-through: the loader's own value, unmarked, and no state change
    ensures !Intercepts(s, id) ==> r == Step(s, Ok(Plain(load(id))))
    // cache hit: the stored value, and no state change
    ensures Intercepts(s, id) && id in s.cache ==> r == Step(s, Ok(s.cache[id]))
    // miss: exactly one handler call with the genuine exports
    ensures Intercepts(s, id) && id !in s.cache ==>
      var outcome := s.session.handler(s.session.calls, id, load(id));
      && r.state.log == s.log + [Call(id, load(id), outcome)]
      && r.state.session == s.session.(calls := s.session.calls + 1)
      && (outcome.Returned? ==>
            && r.result == Ok(Thunked(outcome.value))
            && r.state.cache == s.cache[id := Thunked(outcome.value)])
      && (outcome.Threw? ==>
            && r.result == Err(HandlerThrew(outcome.reason))
            && r.state.cache == s.cache)
  {
    match s.session
    case Inactive => Step(s, Ok(Plain(load(id))))
    case Active(selections, handler, calls) =>
      var selected := IsSelected(selections, id);
      if selected && id in s.cache then
        Step(s, Ok(s.cache[id]))
      else
        var orig := load(id);
        if !selected then
          Step(s, Ok(Plain(orig)))
        else
          var outcome := handler(calls, id, orig);
          var called := s.(session := s.session.(calls := calls + 1), log := s.log + [Call(id, orig, outcome)]);
          match outcome
          case Returned(v) => Step(called.(cache := s.cache[id := Thunked(v)]), Ok(Thunked(v)))
          case Threw(reason) => Step(called, Err(HandlerThrew(reason)))
  }

  /** `clearThunkCache`: never fails and touches nothing but the cache. */
  function ClearThunkCache<V>(s: State<V>, which: ClearTargets): (r: State<V>)
    ensures r.session == s.session && r.log == s.log
    ensures which.Everything? ==> r.cache == map[]
    ensures which.Only? ==> forall id :: id in r.cache <==> id in s.cache && id !in AsList(which.targets)
    ensures forall id :: id in r.cache ==> r.cache[id] == s.cache[id]
  {
    s.(cache := Clear(s.cache, which))
  }

  /** `disableThunking`: a no-op when not patched, otherwise restores the
      original loader and empties the cache. */
  function Disable<V>(s: State<V>): (r: State<V>)
    ensures r.session.Inactive? && r.log == s.log
    ensures s.session.Active? ==> r.cache == map[]
    ensures s.session.Inactive? ==> r == s
  {
    if s.session.Inactive? then s else State(Inactive, map[], s.log)
  }

  /** Disabling always ends with no session and an empty cache, and a second
      disable changes nothing. */
  lemma DisableEmptiesCache<V>(s: State<V>)
    requires Valid(s)
    ensures Disable(s).session.Inactive? && Disable(s).cache == map[]
    ensures Disable(Disable(s)) == Disable(s)
  {
  }

  lemma EnablePreservesValid<V>(s: State<V>, targets: Targets, handler: Handler<V>)
    requires Valid(s)
    ensures Valid(Enable(s, targets, handler).state)
  {
  }

  lemma RequirePreservesValid<V>(s: State<V>, load: Id -> V, id: Id)
    requires Valid(s)
    ensures Valid(Require(s, load, id).state)
  {
  }

  lemma ClearPreservesValid<V>(s: State<V>, which: ClearTargets)
    requires Valid(s)
    ensures Valid(ClearThunkCache(s, which))
  {
  }

  lemma DisablePreservesValid<V>(s: State<V>)
    requires Valid(s)
    ensures Valid(Disable(s))
  {
  }

  /** Every value `require` hands back from the cache carries the marker, and
      a value without the marker is always the loader's own. */
  lemma RequireResultMarked<V>(s: State<V>, load: Id -> V, id: Id)
    requires Valid(s)
    requires Require(s, load, id).result.Ok?
    ensures Require(s, load, id).result.value.Thunked? <==> Intercepts(s, id)
    ensures Require(s, load, id).result.value.Plain? ==> Require(s, load, id).result.value.value == load(id)
  {
  }

  /** A failed enable leaves the running session exactly as it was: the
      selection, the handler, the cache and the log. */
  lemma EnableTwiceFails<V>(s: State<V>, t1: Targets, h1: Handler<V>, t2: Targets, h2: Handler<V>)
    requires s.session.Inactive?
    ensures var first := Enable(s, t1, h1);
            var second := Enable(first.state, t2, h2);
            && first.result.Ok?
            && second.result == Err(AlreadyPatched)
            && second.state == first.state
  {
  }

  /** After a clear that names `id`, or clears everything, the next `require`
      of an intercepted id invokes the handler again, even if it was cached
      before. */
  lemma ClearedIdReinvokesHandler<V>(s: State<V>, which: ClearTargets, load: Id -> V, id: Id)
    requires Intercepts(s, id)
    requires which.Everything? || (which.Only? && id in AsList(which.targets))
    ensures var r := Require(ClearThunkCache(s, which), load, id);
            |r.state.log| == |s.log| + 1 && r.state.log[|s.log|].id == id
  {
  }
}
