/** What the rate limiter's answers are worth: how many requests a window can hold, and what `retryAfterSeconds` and
    `remaining` tell a client. */
module RateLimitAnswers {
  import opened Options
  import opened RateLimit
  import opened RateLimitWindows

  // ---------------------------------------------------------------- every window

  lemma InWindowAppend(h: seq<nat>, x: nat, t: int)
    ensures t - WINDOW_MS < x <= t ==> InWindow(h + [x], t) == InWindow(h, t) + [x]
    ensures !(t - WINDOW_MS < x <= t) ==> InWindow(h + [x], t) == InWindow(h, t)
  {
    assert (h + [x])[..|h|] == h;
  }

  lemma {:induction false} WindowWithinSince(h: seq<nat>, t: int, from: int)
    requires from <= t - WINDOW_MS
    ensures |InWindow(h, t)| <= |Since(h, from)|
  {
    if h != [] {
      WindowWithinSince(h[..|h| - 1], t, from);
    }
  }

  lemma {:induction false} LatestWindow(h: seq<nat>, now: int)
    requires UpTo(h, now)
    ensures InWindow(h, now) == Since(h, now - WINDOW_MS)
  {
    if h != [] {
      LatestWindow(h[..|h| - 1], now);
    }
  }

  /** Every half-open minute, not just the one before a request, holds at most `limit` allowed requests. */
  lemma {:induction false} EveryWindowIsLimited(times: seq<nat>, limit: int, t: int)
    requires Sorted(times)
    ensures |InWindow(Allowed(times, limit), t)| <= Max(0, limit)
  {
    if times != [] {
      hide InWindow, Since;
      var n := |times| - 1;
      EveryWindowIsLimited(times[..n], limit, t);
      var h := Allowed(times[..n], limit);
      InWindowAppend(h, times[n], t);
      if times[n] <= t {
        WindowWithinSince(h, t, times[n] - WINDOW_MS);
      }
    } else {
      assert InWindow([], t) == [];
    }
  }

  /** So a blocked request finds exactly `limit` requests in its window. */
  lemma BlockedWindowIsFull(times: seq<nat>, limit: int, now: nat)
    requires Sorted(times + [now]) && limit >= 0
    requires !SpecCheck(Allowed(times, limit), limit, now).allowed
    ensures |Since(Allowed(times, limit), now - WINDOW_MS)| == limit
  {
    SortedPrefix(times, now);
    AllowedSorted(times, limit);
    var h := Allowed(times, limit);
    assert UpTo(h, now) by {
      forall i | 0 <= i < |h| ensures h[i] <= now {
        assert h[i] in times;
      }
    }
    LatestWindow(h, now);
    EveryWindowIsLimited(times, limit, now);
  }

  // ---------------------------------------------------------------- retryAfterSeconds

  /** With a full window, room appears exactly when its oldest request is a window old. */
  lemma RoomAppears(h: seq<nat>, limit: int, now: nat, later: nat)
    requires limit >= 1 && |Since(h, now - WINDOW_MS)| == limit && Sorted(h) && later >= now
    ensures SpecCheck(h, limit, later).allowed <==> later >= Since(h, now - WINDOW_MS)[0] + WINDOW_MS
  {
    hide Since;
    var recent := Since(h, now - WINDOW_MS);
    SinceSorted(h, now - WINDOW_MS);
    SinceAgain(h, now - WINDOW_MS, later - WINDOW_MS);
    if later >= recent[0] + WINDOW_MS {
      FirstGoes(recent);
      SinceShrinks(recent, recent[0], later - WINDOW_MS);
    } else {
      AllSince(recent, later - WINDOW_MS);
    }
  }

  lemma WholeSeconds(due: int, s: int)
    requires due > 0
    ensures 1000 * s >= due <==> s >= Max(1, CeilDiv(due, 1000))
  {
  }

  /** After a block, `retryAfterSeconds` is exact: with nothing else allowed meanwhile, a retry after a whole number of
      seconds is allowed if and only if it waits at least that long. */
  lemma RetryAfterIsExact(times: seq<nat>, limit: int, now: nat, degraded: bool, s: nat)
    requires Sorted(times + [now]) && limit >= 1
    requires !SpecCheck(Allowed(times, limit), limit, now).allowed
    ensures var wait := BuildResult(SpecCheck(Allowed(times, limit), limit, now), limit, now,
      degraded).retryAfterSeconds;
      SpecCheck(Allowed(times, limit), limit, now + 1000 * s).allowed <==> s >= wait
  {
    hide Since, CeilDiv;
    var h := Allowed(times, limit);
    SortedPrefix(times, now);
    AllowedSorted(times, limit);
    BlockedWindowIsFull(times, limit, now);
    SinceSorted(h, now - WINDOW_MS);
    var oldest := Since(h, now - WINDOW_MS)[0];
    RoomAppears(h, limit, now, now + 1000 * s);
    WholeSeconds(oldest + WINDOW_MS - now, s);
  }

  /** A limit of zero never lets anything through, though its answers still name a wait of a minute. */
  lemma ZeroLimitNeverAllows(times: seq<nat>, limit: int, now: nat)
    requires limit <= 0
    ensures Allowed(times, limit) == []
    ensures var c := SpecCheck(Allowed(times, limit), limit, now);
      !c.allowed && BuildResult(c, limit, now, false).retryAfterSeconds == 60
  {
    if times != [] {
      ZeroLimitNeverAllows(times[..|times| - 1], limit, now);
    }
  }

  /** `resetSeconds` is the first whole second at which the oldest reported request has left the window. */
  lemma ResetIsExact(c: Checked, limit: int, now: nat, degraded: bool, second: int)
    ensures 1000 * second - WINDOW_MS >= c.oldest <==> second >= BuildResult(c, limit, now, degraded).resetSeconds
  {
  }

  // ---------------------------------------------------------------- remaining

  function Repeated(now: nat, n: nat): (r: seq<nat>)
    ensures |r| == n && forall i :: 0 <= i < n ==> r[i] == now
  {
    if n == 0 then [] else Repeated(now, n - 1) + [now]
  }

  lemma RepeatOnce(times: seq<nat>, limit: int, now: nat, n: nat)
    requires n > 0
    ensures Allowed(times + Repeated(now, n), limit)
      == Recorded(Allowed(times + Repeated(now, n - 1), limit), limit, now)
  {
    hide Recorded;
    var before, all := times + Repeated(now, n - 1), times + Repeated(now, n);
    assert all == before + [now];
    assert all[..|all| - 1] == before;
  }

  lemma {:induction false} CountAfterRepeats(times: seq<nat>, limit: int, now: nat, n: nat)
    requires |Since(Allowed(times, limit), now - WINDOW_MS)| <= limit
    ensures var count := |Since(Allowed(times, limit), now - WINDOW_MS)| + n;
      |Since(Allowed(times + Repeated(now, n), limit), now - WINDOW_MS)| == if count < limit then count else limit
  {
    if n == 0 {
      assert times + Repeated(now, 0) == times;
    } else {
      hide Since, Repeated, Allowed;
      CountAfterRepeats(times, limit, now, n - 1);
      var before, all := times + Repeated(now, n - 1), times + Repeated(now, n);
      RepeatOnce(times, limit, now, n);
      SinceAppend(Allowed(before, limit), now, now - WINDOW_MS);
    }
  }

  /** A blocked request leaves no trace, so repeating it changes nothing. */
  lemma {:induction false} BlockedStaysBlocked(times: seq<nat>, limit: int, now: nat, n: nat)
    requires !SpecCheck(Allowed(times, limit), limit, now).allowed
    ensures Allowed(times + Repeated(now, n), limit) == Allowed(times, limit)
  {
    if n == 0 {
      assert times + Repeated(now, 0) == times;
    } else {
      hide SpecCheck, Repeated, Allowed;
      BlockedStaysBlocked(times, limit, now, n - 1);
      RepeatOnce(times, limit, now, n);
    }
  }

  /** Whether the request is allowed or blocked: when its answer reports `remaining` = k, exactly k more are allowed at
      the same instant. */
  lemma RemainingIsExact(times: seq<nat>, limit: int, now: nat, degraded: bool, more: nat)
    ensures var k := BuildResult(SpecCheck(Allowed(times, limit), limit, now), limit, now, degraded).remaining;
      SpecCheck(Allowed(times + [now] + Repeated(now, more), limit), limit, now).allowed <==> more < k
  {
    hide Since;
    var h := Allowed(times, limit);
    assert (times + [now])[..|times|] == times;
    if SpecCheck(h, limit, now).allowed {
      SinceAppend(h, now, now - WINDOW_MS);
      CountAfterRepeats(times + [now], limit, now, more);
    } else {
      assert Allowed(times + [now], limit) == h;
      BlockedStaysBlocked(times + [now], limit, now, more);
    }
  }

  // ---------------------------------------------------------------- switching backends

  /** A call on this instance, or one that another instance made to the same Redis. */
  datatype Call =
    | Here(now: nat, backend: Backend, gone: bool, member: Member)
    | Elsewhere(now: nat, gone: bool, member: Member)

  predicate RunsScript(c: Call) {
    c.Elsewhere? || ScriptRuns(c.backend)
  }

  predicate UsesMemory(c: Call) {
    c.Here? && !c.backend.Healthy?
  }

  function RedisCalls(calls: seq<Call>): seq<RedisCall> {
    if calls == [] then []
    else
      var c, earlier := calls[|calls| - 1], RedisCalls(calls[..|calls| - 1]);
      if RunsScript(c) then earlier + [RedisCall(c.now, c.member, c.gone)] else earlier
  }

  function MemoryTimes(calls: seq<Call>): seq<nat> {
    if calls == [] then []
    else
      var c, earlier := calls[|calls| - 1], MemoryTimes(calls[..|calls| - 1]);
      if UsesMemory(c) then earlier + [c.now] else earlier
  }

  datatype Stores = Stores(zset: Zset, timestamps: seq<nat>)

  /** What both stores hold for the key after the calls, as `check` updates them. */
  function Run(calls: seq<Call>, limit: int, fallback: int): Stores {
    if calls == [] then Stores(NO_KEY, [])
    else
      var c, s := calls[|calls| - 1], Run(calls[..|calls| - 1], limit, fallback);
      Stores(if RunsScript(c) then RedisAfter(s.zset, c.gone, limit, c.now, c.member) else s.zset,
             if UsesMemory(c) then MemoryAfter(s.timestamps, fallback, c.now) else s.timestamps)
  }

  /** When this instance let a request through. */
  ghost function Granted(calls: seq<Call>, limit: int, degradedLimit: Option<int>): seq<nat> {
    if calls == [] then []
    else
      var n := |calls| - 1;
      var c, s := calls[n], Run(calls[..n], limit, FallbackLimit(limit, degradedLimit));
      var earlier := Granted(calls[..n], limit, degradedLimit);
      if c.Here? && Answer(s.zset, s.timestamps, limit, degradedLimit, c.now, c.backend, c.gone, c.member).allowed
        then earlier + [c.now] else earlier
  }

  ghost predicate GenuineCalls(calls: seq<Call>, limit: int) {
    && (forall i, j :: 0 <= i < j < |calls| ==> calls[i].now <= calls[j].now)
    && Genuine(RedisCalls(calls), limit)
  }

  lemma {:induction false} EachStoreRunsItsCalls(calls: seq<Call>, limit: int, fallback: int)
    ensures Run(calls, limit, fallback)
      == Stores(RedisRun(RedisCalls(calls), limit), MemoryRun(MemoryTimes(calls), fallback))
  {
    if calls != [] {
      hide RedisAfter, MemoryAfter;
      var n := |calls| - 1;
      var c := calls[n];
      EachStoreRunsItsCalls(calls[..n], limit, fallback);
      var rs, ms := RedisCalls(calls[..n]), MemoryTimes(calls[..n]);
      assert RunsScript(c) ==> RedisCalls(calls)[..|rs|] == rs;
      assert UsesMemory(c) ==> MemoryTimes(calls)[..|ms|] == ms;
    }
  }

  lemma {:induction false} MemoryTimesSorted(calls: seq<Call>)
    requires forall i, j :: 0 <= i < j < |calls| ==> calls[i].now <= calls[j].now
    ensures Sorted(MemoryTimes(calls))
    ensures forall i :: 0 <= i < |MemoryTimes(calls)| ==> MemoryTimes(calls)[i] <= calls[|calls| - 1].now
  {
    if calls != [] {
      MemoryTimesSorted(calls[..|calls| - 1]);
    }
  }

  lemma GenuineCallsPrefix(calls: seq<Call>, limit: int)
    requires GenuineCalls(calls, limit) && calls != []
    ensures GenuineCalls(calls[..|calls| - 1], limit)
  {
    var n := |calls| - 1;
    if RunsScript(calls[n]) {
      assert RedisCalls(calls)[..|RedisCalls(calls[..n])|] == RedisCalls(calls[..n]);
      GenuinePrefix(RedisCalls(calls), limit);
    }
  }

  /** Each answer is the specification's, whole, for the history of the store that gave it. */
  lemma GrantedIsRecorded(calls: seq<Call>, limit: int, degradedLimit: Option<int>)
    requires GenuineCalls(calls, limit) && calls != [] && calls[|calls| - 1].Here?
    ensures var n, fallback := |calls| - 1, FallbackLimit(limit, degradedLimit);
      var c, s := calls[n], Run(calls[..n], limit, fallback);
      Answer(s.zset, s.timestamps, limit, degradedLimit, c.now, c.backend, c.gone, c.member) ==
        if c.backend.Healthy?
          then BuildResult(SpecCheck(Allowed(Times(RedisCalls(calls[..n])), limit), limit, c.now), limit, c.now, false)
          else BuildResult(SpecCheck(Allowed(MemoryTimes(calls[..n]), fallback), fallback, c.now), fallback, c.now,
            true)
  {
    hide RedisCheck, MemoryCheck, SpecCheck, Genuine, BuildResult;
    var n, fallback := |calls| - 1, FallbackLimit(limit, degradedLimit);
    var c := calls[n];
    EachStoreRunsItsCalls(calls[..n], limit, fallback);
    if c.backend.Healthy? {
      RedisRefinesHistory(RedisCalls(calls[..n]), limit, RedisCall(c.now, c.member, c.gone));
    } else {
      MemoryTimesSorted(calls);
      MemoryRefinesHistory(MemoryTimes(calls[..n]), fallback, c.now);
    }
  }

  lemma GrantedIsAllowed(calls: seq<Call>, limit: int, degradedLimit: Option<int>)
    requires GenuineCalls(calls, limit) && calls != [] && calls[|calls| - 1].Here?
    ensures var n, fallback := |calls| - 1, FallbackLimit(limit, degradedLimit);
      var c, s := calls[n], Run(calls[..n], limit, fallback);
      var allowed := Answer(s.zset, s.timestamps, limit, degradedLimit, c.now, c.backend, c.gone, c.member).allowed;
      && (c.backend.Healthy? ==>
           allowed == SpecCheck(Allowed(Times(RedisCalls(calls[..n])), limit), limit, c.now).allowed)
      && (!c.backend.Healthy? ==>
           allowed == SpecCheck(Allowed(MemoryTimes(calls[..n]), fallback), fallback, c.now).allowed)
  {
    GrantedIsRecorded(calls, limit, degradedLimit);
    hide RedisCheck, MemoryCheck, SpecCheck, GenuineCalls, Answer, Run;
  }

  // ---------------------------------------------------------------- every field of every answer

  /** The answer to the last call, which this instance made. */
  ghost function LastAnswer(calls: seq<Call>, limit: int, degradedLimit: Option<int>): RateLimitResult
    requires calls != [] && calls[|calls| - 1].Here?
  {
    var n := |calls| - 1;
    var c, s := calls[n], Run(calls[..n], limit, FallbackLimit(limit, degradedLimit));
    Answer(s.zset, s.timestamps, limit, degradedLimit, c.now, c.backend, c.gone, c.member)
  }

  /** Which limit answers, whether the answer is marked degraded, and that a wait is named exactly to blocked
      requests. */
  lemma AnswerByField(calls: seq<Call>, limit: int, degradedLimit: Option<int>)
    requires calls != [] && calls[|calls| - 1].Here?
    ensures var answer, healthy := LastAnswer(calls, limit, degradedLimit), calls[|calls| - 1].backend.Healthy?;
      && (answer.degraded <==> !healthy)
      && (healthy ==> answer.limit == limit)
      && (!healthy && degradedLimit.Some? ==> answer.limit == degradedLimit.value)
      && (!healthy && degradedLimit.None? ==> answer.limit == if limit < 4 then 1 else limit / 2)
      && (answer.retryAfterSeconds == 0 <==> answer.allowed) && answer.retryAfterSeconds >= 0
      && answer.remaining >= 0
  {
    hide RedisCheck, MemoryCheck, Run;
  }

  lemma {:induction false} RedisTimesOfMore(calls: seq<Call>, more: seq<Call>, now: nat)
    requires forall i :: 0 <= i < |more| ==> more[i].now == now && RunsScript(more[i])
    ensures Times(RedisCalls(calls + more)) == Times(RedisCalls(calls)) + Repeated(now, |more|)
    decreases |more|
  {
    if more == [] {
      assert calls + more == calls;
    } else {
      hide RunsScript;
      var n := |more| - 1;
      RedisTimesOfMore(calls, more[..n], now);
      assert (calls + more)[..|calls + more| - 1] == calls + more[..n];
      var rs := RedisCalls(calls + more[..n]);
      assert RedisCalls(calls + more)[..|rs|] == rs;
    }
  }

  lemma {:induction false} MemoryTimesOfMore(calls: seq<Call>, more: seq<Call>, now: nat)
    requires forall i :: 0 <= i < |more| ==> more[i].now == now && UsesMemory(more[i])
    ensures MemoryTimes(calls + more) == MemoryTimes(calls) + Repeated(now, |more|)
    decreases |more|
  {
    if more == [] {
      assert calls + more == calls;
    } else {
      hide UsesMemory;
      var n := |more| - 1;
      MemoryTimesOfMore(calls, more[..n], now);
      assert (calls + more)[..|calls + more| - 1] == calls + more[..n];
    }
  }

  lemma {:induction false} RepeatedFirst(now: nat, n: nat)
    requires n > 0
    ensures Repeated(now, n) == [now] + Repeated(now, n - 1)
  {
  }

  lemma {:induction false} GenuineCallsCut(calls: seq<Call>, limit: int, n: nat)
    requires GenuineCalls(calls, limit) && n <= |calls|
    ensures GenuineCalls(calls[..n], limit)
    decreases |calls| - n
  {
    if n == |calls| {
      assert calls[..n] == calls;
    } else {
      hide GenuineCalls;
      GenuineCallsCut(calls, limit, n + 1);
      GenuineCallsPrefix(calls[..n + 1], limit);
      assert calls[..n + 1][..n] == calls[..n];
    }
  }

  /** The times the store of the last call had recorded before it. */
  function TimesBefore(calls: seq<Call>): seq<nat>
    requires calls != [] && calls[|calls| - 1].Here?
  {
    var n := |calls| - 1;
    if calls[n].backend.Healthy? then Times(RedisCalls(calls[..n])) else MemoryTimes(calls[..n])
  }

  lemma AnswerOfTimes(calls: seq<Call>, limit: int, degradedLimit: Option<int>)
    requires GenuineCalls(calls, limit) && calls != [] && calls[|calls| - 1].Here?
    ensures var c, fallback := calls[|calls| - 1], FallbackLimit(limit, degradedLimit);
      var l := if c.backend.Healthy? then limit else fallback;
      LastAnswer(calls, limit, degradedLimit)
        == BuildResult(SpecCheck(Allowed(TimesBefore(calls), l), l, c.now), l, c.now, !c.backend.Healthy?)
  {
    hide Answer, Run, BuildResult, SpecCheck, Allowed, GenuineCalls;
    GrantedIsRecorded(calls, limit, degradedLimit);
  }

  lemma TimesBeforeMore(calls: seq<Call>, more: seq<Call>)
    requires calls != [] && calls[|calls| - 1].Here? && more != []
    requires forall i :: 0 <= i < |more| ==>
      more[i].Here? && more[i].now == calls[|calls| - 1].now
        && more[i].backend.Healthy? == calls[|calls| - 1].backend.Healthy?
    ensures (calls + more)[|calls + more| - 1] == more[|more| - 1]
    ensures TimesBefore(calls + more)
      == TimesBefore(calls) + [calls[|calls| - 1].now] + Repeated(calls[|calls| - 1].now, |more| - 1)
  {
    hide RedisCalls, MemoryTimes, Times, Repeated;
    var n, k, now := |calls| - 1, |more| - 1, calls[|calls| - 1].now;
    var again := [calls[n]] + more[..k];
    assert (calls + more)[..n + 1 + k] == calls[..n] + again;
    assert forall i :: 0 <= i < |again| ==>
      (again[i].now == now && again[i].Here? && again[i].backend.Healthy? == calls[n].backend.Healthy?);
    if calls[n].backend.Healthy? {
      RedisTimesOfMore(calls[..n], again, now);
    } else {
      MemoryTimesOfMore(calls[..n], again, now);
    }
    RepeatedFirst(now, k + 1);
  }

  /** However the connection behaves, `remaining` is exact: of further requests to this instance at the same instant,
      answered by the same store, exactly that many are allowed, whether this one was allowed or blocked. */
  lemma ExactlyRemainingMore(calls: seq<Call>, more: seq<Call>, limit: int, degradedLimit: Option<int>)
    requires calls != [] && calls[|calls| - 1].Here? && more != [] && GenuineCalls(calls + more, limit)
    requires forall i :: 0 <= i < |more| ==>
      more[i].Here? && more[i].now == calls[|calls| - 1].now
        && more[i].backend.Healthy? == calls[|calls| - 1].backend.Healthy?
    ensures (calls + more)[|calls + more| - 1].Here?
    ensures LastAnswer(calls + more, limit, degradedLimit).allowed
      <==> |more| <= LastAnswer(calls, limit, degradedLimit).remaining
  {
    hide LastAnswer, GenuineCalls, Allowed, Repeated, TimesBefore, SpecCheck;
    var c, fallback := calls[|calls| - 1], FallbackLimit(limit, degradedLimit);
    var l := if c.backend.Healthy? then limit else fallback;
    GenuineCallsCut(calls + more, limit, |calls|);
    assert (calls + more)[..|calls|] == calls;
    TimesBeforeMore(calls, more);
    AnswerOfTimes(calls, limit, degradedLimit);
    AnswerOfTimes(calls + more, limit, degradedLimit);
    RemainingIsExact(TimesBefore(calls), l, c.now, !c.backend.Healthy?, |more| - 1);
  }

  lemma HistoriesUnfold(calls: seq<Call>, limit: int, fallback: int)
    requires calls != []
    ensures var n := |calls| - 1;
      var c, rs, ms := calls[n], Allowed(Times(RedisCalls(calls[..n])), limit),
        Allowed(MemoryTimes(calls[..n]), fallback);
      && Allowed(Times(RedisCalls(calls)), limit) == (if RunsScript(c) then Recorded(rs, limit, c.now) else rs)
      && Allowed(MemoryTimes(calls), fallback) == (if UsesMemory(c) then Recorded(ms, fallback, c.now) else ms)
  {
    hide Recorded;
    var n := |calls| - 1;
    var c, rs, ms := calls[n], RedisCalls(calls[..n]), MemoryTimes(calls[..n]);
    if RunsScript(c) {
      assert RedisCalls(calls)[..|rs|] == rs;
      assert Times(RedisCalls(calls))[..|rs|] == Times(rs);
    }
    if UsesMemory(c) {
      assert MemoryTimes(calls)[..|ms|] == ms;
    }
  }

  lemma {:induction false} GrantedWithinHistories(calls: seq<Call>, limit: int, degradedLimit: Option<int>, t: int)
    requires GenuineCalls(calls, limit)
    ensures var fallback := FallbackLimit(limit, degradedLimit);
      |InWindow(Granted(calls, limit, degradedLimit), t)|
        <= |InWindow(Allowed(Times(RedisCalls(calls)), limit), t)|
          + |InWindow(Allowed(MemoryTimes(calls), fallback), t)|
  {
    var fallback := FallbackLimit(limit, degradedLimit);
    if calls != [] {
      hide InWindow, Allowed, SpecCheck, GenuineCalls, Answer, Run, RedisCalls, MemoryTimes, FallbackLimit;
      var n := |calls| - 1;
      var c := calls[n];
      GenuineCallsPrefix(calls, limit);
      GrantedWithinHistories(calls[..n], limit, degradedLimit, t);
      HistoriesUnfold(calls, limit, fallback);
      if c.Here? {
        GrantedIsAllowed(calls, limit, degradedLimit);
      }
      InWindowAppend(Granted(calls[..n], limit, degradedLimit), c.now, t);
      InWindowAppend(Allowed(Times(RedisCalls(calls[..n])), limit), c.now, t);
      InWindowAppend(Allowed(MemoryTimes(calls[..n]), fallback), c.now, t);
    } else {
      assert InWindow([], t) == [];
    }
  }

  /** However the connection comes and goes, one instance lets through at most the limit plus the fallback limit in any
      window. */
  lemma SwitchingIsLimited(calls: seq<Call>, limit: int, degradedLimit: Option<int>, t: int)
    requires GenuineCalls(calls, limit)
    ensures |InWindow(Granted(calls, limit, degradedLimit), t)| <= Max(0, limit)
      + Max(0, FallbackLimit(limit, degradedLimit))
  {
    hide InWindow, Allowed, RedisCalls, MemoryTimes, FallbackLimit, Granted;
    var fallback := FallbackLimit(limit, degradedLimit);
    GrantedWithinHistories(calls, limit, degradedLimit, t);
    MemoryTimesSorted(calls);
    EveryWindowIsLimited(Times(RedisCalls(calls)), limit, t);
    EveryWindowIsLimited(MemoryTimes(calls), fallback, t);
  }

  /** By default that is one and a half times the limit, and never less than one more. */
  lemma DefaultSwitchingIsLimited(calls: seq<Call>, limit: int, t: int)
    requires GenuineCalls(calls, limit) && limit >= 0
    ensures |InWindow(Granted(calls, limit, None), t)| <= limit + (if limit < 2 then 1 else limit / 2)
  {
    hide InWindow, Granted, GenuineCalls;
    SwitchingIsLimited(calls, limit, None, t);
  }
}
