/** The repository's test scenarios, restated as concrete runs. Module values
    are integers: the genuine exports of an id are its length, and handlers
    return numbers standing for the objects the tests construct.
 */
module Scenarios {
  import opened Selection
  import opened ThunkCache
  import opened RequireThunk
  import opened Trace

  /** The original loader: a fixed value per identifier. */
  function Genuine(id: Id): int { |id| }

  /** A handler returning a fresh substitute per call: 1, 2, 3, ... */
  function Counting(calls: nat, id: Id, exports: int): Outcome<int> { Returned(calls + 1) }

  /** A handler returning the same substitute on every call. */
  function Constant(calls: nat, id: Id, exports: int): Outcome<int> { Returned(100) }

  /** A handler that throws. */
  function Throwing(calls: nat, id: Id, exports: int): Outcome<int> { Threw("boom") }

  /** Enabling twice fails, and disabling afterwards succeeds. */
  lemma CannotThunkTwice()
    ensures var (s1, r1) := Apply(Init(), Genuine, EnableThunking(Single("*"), Constant));
            var (s2, r2) := Apply(s1, Genuine, EnableThunking(Single("*"), Constant));
            var (s3, r3) := Apply(s2, Genuine, DisableThunking);
            && r1 == Done && r2 == Failed(AlreadyPatched) && s2 == s1
            && r3 == Done && s3 == Init()
  {
  }

  /** Disabling without a session, twice, is silent and changes nothing. */
  lemma UnthunkIsSilent()
    ensures var (s1, r1) := Apply(Init<int>(), Genuine, DisableThunking);
            var (s2, r2) := Apply(s1, Genuine, DisableThunking);
            r1 == Done && r2 == Done && s1 == Init() && s2 == Init()
  {
  }

  /** A wildcard session substitutes the handler's value, marked, after one
      handler call made with the genuine exports. */
  lemma ThunksModules()
    ensures var (s1, _) := Apply(Init(), Genuine, EnableThunking(Single("*"), Counting));
            var (s2, thunked) := Apply(s1, Genuine, RequireModule("net"));
            var (s3, _) := Apply(s2, Genuine, DisableThunking);
            && thunked == Loaded(Thunked(1))
            && s3.log == [Call("net", Genuine("net"), Returned(1))]
  {
  }

  /** Three loads of one module: one handler call, the same value thrice. */
  lemma CachesThunkedModules()
    ensures var (s1, _) := Apply(Init(), Genuine, EnableThunking(Single("*"), Counting));
            var (s2, one) := Apply(s1, Genuine, RequireModule("net"));
            var (s3, two) := Apply(s2, Genuine, RequireModule("net"));
            var (s4, three) := Apply(s3, Genuine, RequireModule("net"));
            var (s5, _) := Apply(s4, Genuine, DisableThunking);
            && one == Loaded(Thunked(1)) && two == one && three == one
            && |s5.log| == 1
  {
  }

  /** A module outside the selection is loaded untouched, without a handler call. */
  lemma IgnoresUnselectedModules()
    ensures var (s1, _) := Apply(Init(), Genuine, EnableThunking(Single("http"), Counting));
            var (s2, net) := Apply(s1, Genuine, RequireModule("net"));
            var (s3, _) := Apply(s2, Genuine, DisableThunking);
            && net == Loaded(Plain(Genuine("net")))
            && |s3.log| == 0
  {
  }

  /** A list selection intercepts each listed module and nothing else; an
      identifier that merely extends a listed one is not selected. */
  lemma ThunksMultipleModules()
    ensures var (s1, _) := Apply(Init(), Genuine, EnableThunking(List(["http", "https"]), Constant));
            var (s2, net) := Apply(s1, Genuine, RequireModule("net"));
            var (s3, http) := Apply(s2, Genuine, RequireModule("http"));
            var (s4, https) := Apply(s3, Genuine, RequireModule("https"));
            var (s5, http2) := Apply(s4, Genuine, RequireModule("http2"));
            var (s6, _) := Apply(s5, Genuine, DisableThunking);
            && net == Loaded(Plain(Genuine("net")))
            && http == Loaded(Thunked(100)) && https == Loaded(Thunked(100))
            && http2 == Loaded(Plain(Genuine("http2")))
            && |s6.log| == 2
  {
    var sel := ["http", "https"];
    var (s1, _) := Apply(Init(), Genuine, EnableThunking(List(sel), Constant));
    assert s1 == State(Active(sel, Constant, 0), map[], []);
    assert !IsSelected(sel, "net") by { assert sel[0] != "net" && sel[1] != "net"; }
    var (s2, net) := Apply(s1, Genuine, RequireModule("net"));
    assert s2 == s1;
    assert IsSelected(sel, "http") && IsSelected(sel, "https") by { assert sel[0] == "http" && sel[1] == "https"; }
    var (s3, http) := Apply(s2, Genuine, RequireModule("http"));
    assert s3.cache == map["http" := Thunked(100)] && |s3.log| == 1;
    assert "https" != "http";
    var (s4, https) := Apply(s3, Genuine, RequireModule("https"));
    assert |s4.log| == 2;
    assert !IsSelected(sel, "http2") by { assert sel[0] != "http2" && sel[1] != "http2" && sel[0] != Wildcard && sel[1] != Wildcard; }
    var (s5, http2) := Apply(s4, Genuine, RequireModule("http2"));
    assert s5 == s4;
  }

  /** The state after the purging test has loaded `net` twice, cleared
      everything and loaded `net` again. */
  function AfterFullClear(): State<int>
  {
    State(Active(["*"], Counting, 2), map["net" := Thunked(2)],
          [Call("net", 3, Returned(1)), Call("net", 3, Returned(2))])
  }

  /** Purging, first part: after a full clear the next load of `net` calls
      the handler again. */
  lemma PurgeEverything()
    ensures var (s1, _) := Apply(Init(), Genuine, EnableThunking(Single("*"), Counting));
            var (s2, one) := Apply(s1, Genuine, RequireModule("net"));
            var (s3, cached) := Apply(s2, Genuine, RequireModule("net"));
            var (s4, _) := Apply(s3, Genuine, ClearThunkCacheOp(Everything));
            var (s5, two) := Apply(s4, Genuine, RequireModule("net"));
            && one == Loaded(Thunked(1)) && cached == one
            && two == Loaded(Thunked(2))
            && s5 == AfterFullClear()
  {
  }

  /** The state after the purging test has also cleared `net` alone and
      loaded `net`, `http` and `https`. */
  function AfterSingleClear(): State<int>
  {
    State(Active(["*"], Counting, 5), map["net" := Thunked(3), "http" := Thunked(4), "https" := Thunked(5)],
          AfterFullClear().log + [Call("net", 3, Returned(3)), Call("http", 4, Returned(4)), Call("https", 5, Returned(5))])
  }

  /** Purging, second part: clearing `net` alone re-invokes the handler for it. */
  lemma PurgeSingle()
    ensures var (s6, _) := Apply(AfterFullClear(), Genuine, ClearThunkCacheOp(Only(Single("net"))));
            var (s7, three) := Apply(s6, Genuine, RequireModule("net"));
            var (s8, fourOne) := Apply(s7, Genuine, RequireModule("http"));
            var (s9, fourTwo) := Apply(s8, Genuine, RequireModule("https"));
            && three == Loaded(Thunked(3))
            && fourOne == Loaded(Thunked(4)) && fourTwo == Loaded(Thunked(5))
            && s9 == AfterSingleClear()
  {
  }

  /** Purging, last part: clearing the list `["http"]` re-invokes the handler
      for `http` while `https` keeps the value cached before; disabling then
      empties the cache. The handler ran six times in all. */
  lemma PurgeList()
    ensures var (s10, _) := Apply(AfterSingleClear(), Genuine, ClearThunkCacheOp(Only(List(["http"]))));
            var (s11, fiveOne) := Apply(s10, Genuine, RequireModule("http"));
            var (s12, fiveSameAsFourTwo) := Apply(s11, Genuine, RequireModule("https"));
            var (s13, _) := Apply(s12, Genuine, DisableThunking);
            && fiveOne == Loaded(Thunked(6))
            && fiveSameAsFourTwo == Loaded(Thunked(5))
            && |s13.log| == 6 && s13.cache == map[]
  {
  }

  /** A throwing handler leaves nothing cached, so the next load calls it again. */
  lemma ThrowingHandlerCachesNothing()
    ensures var (s1, _) := Apply(Init(), Genuine, EnableThunking(Single("net"), Throwing));
            var (s2, first) := Apply(s1, Genuine, RequireModule("net"));
            var (s3, second) := Apply(s2, Genuine, RequireModule("net"));
            && first == Failed(HandlerThrew("boom")) && second == first
            && s3.cache == map[] && |s3.log| == 2
  {
  }
}
