/** Sequences of public operations run against the state machine, and what
    they guarantee about handler invocations: between two clears of an id the
    handler produces a substitute for it at most once, and once it has, later
    loads of the id neither call the handler nor change the value returned.
 */
module Trace {
  import opened Selection
  import opened ThunkCache
  import opened RequireThunk

  /** One call a program makes on the provider or the loader. */
  datatype Op<!V> =
    | EnableThunking(targets: Targets, handler: Handler<V>)
    | RequireModule(id: Id)
    | ClearThunkCacheOp(which: ClearTargets)
    | DisableThunking

  /** What the caller of one operation observes. */
  datatype Reply<V> = Done | Loaded(exports: Export<V>) | Failed(error: Error)

  function ReplyOf<V, R>(result: Result<R>, ok: R -> Reply<V>): Reply<V>
  {
    match result
    case Ok(v) => ok(v)
    case Err(e) => Failed(e)
  }

  /** Performs one operation. */
  function Apply<V>(s: State<V>, load: Id -> V, op: Op<V>): (r: (State<V>, Reply<V>))
    ensures Valid(s) ==> Valid(r.0)
  {
    match op
    case EnableThunking(targets, handler) =>
      var step := Enable(s, targets, handler);
      (step.state, ReplyOf(step.result, (_: ()) => Done))
    case RequireModule(id) =>
      var step := Require(s, load, id);
      (step.state, ReplyOf(step.result, (e: Export<V>) => Loaded(e)))
    case ClearThunkCacheOp(which) =>
      (ClearThunkCache(s, which), Done)
    case DisableThunking =>
      (Disable(s), Done)
  }

  /** Performs the operations in order; one reply per operation. The log of
      handler invocations only ever grows, and the invariants hold throughout. */
  function Run<V>(s: State<V>, load: Id -> V, ops: seq<Op<V>>): (r: (State<V>, seq<Reply<V>>))
    ensures |r.1| == |ops|
    ensures |s.log| <= |r.0.log| && r.0.log[..|s.log|] == s.log
    ensures Valid(s) ==> Valid(r.0)
    decreases |ops|
  {
    if |ops| == 0 then
      (s, [])
    else
      var (next, reply) := Apply(s, load, ops[0]);
      var (last, replies) := Run(next, load, ops[1..]);
      (last, [reply] + replies)
  }

  /** Handler invocations recorded for `id`. */
  function Invocations<V>(log: seq<Call<V>>, id: Id): nat
    decreases |log|
  {
    if |log| == 0 then 0
    else Invocations(log[..|log| - 1], id) + (if log[|log| - 1].id == id then 1 else 0)
  }

  /** Handler invocations for `id` that returned a substitute. */
  function Substitutions<V>(log: seq<Call<V>>, id: Id): nat
    decreases |log|
  {
    if |log| == 0 then 0
    else
      var last := log[|log| - 1];
      Substitutions(log[..|log| - 1], id) + (if last.id == id && last.outcome.Returned? then 1 else 0)
  }

  /** Operations after which the next selected load of `id` cannot hit the cache. */
  predicate Invalidates<V>(op: Op<V>, id: Id)
  {
    || op.DisableThunking?
    || (op.ClearThunkCacheOp? && (op.which.Everything? || id in AsList(op.which.targets)))
  }

  predicate NoneInvalidates<V>(ops: seq<Op<V>>, id: Id)
  {
    forall i :: 0 <= i < |ops| ==> !Invalidates(ops[i], id)
  }

  /** One operation that does not invalidate a cached `id` keeps its entry
      and makes no handler call for it. */
  lemma ApplyKeepsCached<V>(s: State<V>, load: Id -> V, op: Op<V>, id: Id)
    requires Valid(s) && id in s.cache && !Invalidates(op, id)
    ensures var next := Apply(s, load, op).0;
            && id in next.cache && next.cache[id] == s.cache[id]
            && Invocations(next.log, id) == Invocations(s.log, id)
            && Substitutions(next.log, id) == Substitutions(s.log, id)
  {
  }

  /** Once `id` is cached, no run that leaves it alone calls the handler for
      it again, and its cached value stays the one every load returns. */
  lemma {:induction false} CachedIdNeverReinvokes<V>(s: State<V>, load: Id -> V, ops: seq<Op<V>>, id: Id)
    requires Valid(s) && id in s.cache && NoneInvalidates(ops, id)
    ensures var last := Run(s, load, ops).0;
            && id in last.cache && last.cache[id] == s.cache[id]
            && Invocations(last.log, id) == Invocations(s.log, id)
            && Substitutions(last.log, id) == Substitutions(s.log, id)
    decreases |ops|
  {
    if |ops| > 0 {
      ApplyKeepsCached(s, load, ops[0], id);
      var next := Apply(s, load, ops[0]).0;
      assert NoneInvalidates(ops[1..], id) by {
        forall i | 0 <= i < |ops[1..]| ensures !Invalidates(ops[1..][i], id) {
          assert ops[1..][i] == ops[i + 1];
        }
      }
      CachedIdNeverReinvokes(next, load, ops[1..], id);
    }
  }

  /** One operation adds at most one substitution for `id`, and when it adds
      one, `id` is cached afterwards. */
  lemma ApplySubstitutes<V>(s: State<V>, load: Id -> V, op: Op<V>, id: Id)
    requires Valid(s)
    ensures var next := Apply(s, load, op).0;
            && Substitutions(s.log, id) <= Substitutions(next.log, id) <= Substitutions(s.log, id) + 1
            && (Substitutions(next.log, id) > Substitutions(s.log, id) ==> id in next.cache)
  {
  }

  /** At most once per id between clears: in a run with no clear of `id` and
      no disable, the handler returns a substitute for `id` at most once. */
  lemma {:induction false} HandlerAtMostOncePerId<V>(s: State<V>, load: Id -> V, ops: seq<Op<V>>, id: Id)
    requires Valid(s) && NoneInvalidates(ops, id)
    ensures Substitutions(Run(s, load, ops).0.log, id) <= Substitutions(s.log, id) + 1
    decreases |ops|
  {
    if |ops| > 0 {
      ApplySubstitutes(s, load, ops[0], id);
      var next := Apply(s, load, ops[0]).0;
      assert NoneInvalidates(ops[1..], id) by {
        forall i | 0 <= i < |ops[1..]| ensures !Invalidates(ops[1..][i], id) {
          assert ops[1..][i] == ops[i + 1];
        }
      }
      if id in next.cache {
        CachedIdNeverReinvokes(next, load, ops[1..], id);
      } else {
        HandlerAtMostOncePerId(next, load, ops[1..], id);
      }
    }
  }

  /** If `id` is cached when the run starts, every load of it in a run that
      leaves it alone returns that same cached value. */
  lemma {:induction false} CachedLoadsAgree<V>(s: State<V>, load: Id -> V, ops: seq<Op<V>>, id: Id, k: nat)
    requires Valid(s) && id in s.cache && NoneInvalidates(ops, id)
    requires k < |ops| && ops[k] == RequireModule(id)
    ensures Run(s, load, ops).1[k] == Loaded(s.cache[id])
    decreases |ops|
  {
    var next := Apply(s, load, ops[0]).0;
    ApplyKeepsCached(s, load, ops[0], id);
    if k > 0 {
      assert NoneInvalidates(ops[1..], id) by {
        forall i | 0 <= i < |ops[1..]| ensures !Invalidates(ops[1..][i], id) {
          assert ops[1..][i] == ops[i + 1];
        }
      }
      CachedLoadsAgree(next, load, ops[1..], id, k - 1);
    }
  }
}
