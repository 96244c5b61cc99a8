/** Both backends against the whole history of allowed requests, and what that gives a client. */
module RateLimitWindows {
  import opened Options
  import opened RateLimit

  // ---------------------------------------------------------------- the specification

  /** The decision by the whole history: how many requests allowed so far are newer than a window ago. */
  function SpecCheck(history: seq<nat>, limit: int, now: nat): Checked {
    var recent := Since(history, now - WINDOW_MS);
    if |recent| < limit then Checked(true, |recent| + 1, (recent + [now])[0])
    else Checked(false, |recent|, if recent == [] then now else recent[0])
  }

  function Recorded(history: seq<nat>, limit: int, now: nat): seq<nat> {
    if SpecCheck(history, limit, now).allowed then history + [now] else history
  }

  /** The times of the requests allowed among those made at `times`. */
  function Allowed(times: seq<nat>, limit: int): seq<nat> {
    if times == [] then [] else Recorded(Allowed(times[..|times| - 1], limit), limit, times[|times| - 1])
  }

  predicate Sorted(times: seq<nat>) {
    forall i, j :: 0 <= i < j < |times| ==> times[i] <= times[j]
  }

  /** No request was made after t. */
  predicate UpTo(times: seq<nat>, t: int) {
    forall i :: 0 <= i < |times| ==> times[i] <= t
  }

  /** Entries in the half-open window (t - 60000, t]. */
  function InWindow(history: seq<nat>, t: int): seq<nat> {
    if history == [] then []
    else
      var n := |history| - 1;
      InWindow(history[..n], t) + if t - WINDOW_MS < history[n] <= t then [history[n]] else []
  }

  function MemoryRun(times: seq<nat>, limit: int): seq<nat> {
    if times == [] then [] else MemoryAfter(MemoryRun(times[..|times| - 1], limit), limit, times[|times| - 1])
  }

  datatype RedisCall = RedisCall(now: nat, member: Member, gone: bool)

  function RedisRun(calls: seq<RedisCall>, limit: int): Zset {
    if calls == [] then NO_KEY
    else
      var n := |calls| - 1;
      RedisAfter(RedisRun(calls[..n], limit), calls[n].gone, limit, calls[n].now, calls[n].member)
  }

  function Times(calls: seq<RedisCall>): (times: seq<nat>)
    ensures |times| == |calls| && forall i :: 0 <= i < |calls| ==> times[i] == calls[i].now
  {
    if calls == [] then [] else Times(calls[..|calls| - 1]) + [calls[|calls| - 1].now]
  }

  /** Members are fresh, the clock does not go back, and a key is gone only once its deadline has passed. */
  ghost predicate Genuine(calls: seq<RedisCall>, limit: int) {
    && (forall i, j :: 0 <= i < j < |calls| ==> calls[i].member != calls[j].member && calls[i].now <= calls[j].now)
    && forall i :: 0 <= i < |calls| && calls[i].gone ==> calls[i].now >= RedisRun(calls[..i], limit).deadline
  }

  // ---------------------------------------------------------------- filtering

  lemma SinceAppend(h: seq<nat>, x: nat, t: int)
    ensures x > t ==> Since(h + [x], t) == Since(h, t) + [x]
    ensures x <= t ==> Since(h + [x], t) == Since(h, t)
  {
    assert (h + [x])[..|h|] == h;
  }

  lemma {:induction false} SinceAgain(h: seq<nat>, a: int, b: int)
    requires a <= b
    ensures Since(Since(h, a), b) == Since(h, b)
  {
    if h != [] {
      hide Since;
      var n := |h| - 1;
      assert h == h[..n] + [h[n]];
      SinceAgain(h[..n], a, b);
      SinceAppend(h[..n], h[n], a);
      SinceAppend(h[..n], h[n], b);
      SinceAppend(Since(h[..n], a), h[n], b);
    }
  }

  lemma {:induction false} SinceShrinks(h: seq<nat>, a: int, b: int)
    requires a <= b
    ensures |Since(h, b)| <= |Since(h, a)|
  {
    if h != [] {
      SinceShrinks(h[..|h| - 1], a, b);
    }
  }

  /** A sorted history filtered stays sorted, so its first entry is its oldest. */
  lemma {:induction false} SinceSorted(h: seq<nat>, t: int)
    requires Sorted(h)
    ensures Sorted(Since(h, t))
    ensures forall i :: 0 <= i < |Since(h, t)| ==> Since(h, t)[i] > t && Since(h, t)[i] in h
  {
    if h != [] {
      var n := |h| - 1;
      SinceSorted(h[..n], t);
      assert forall x :: x in h[..n] ==> x <= h[n];
    }
  }

  lemma {:induction false} AllowedSorted(times: seq<nat>, limit: int)
    requires Sorted(times)
    ensures Sorted(Allowed(times, limit))
    ensures forall x :: x in Allowed(times, limit) ==> x in times
  {
    if times != [] {
      var n := |times| - 1;
      AllowedSorted(times[..n], limit);
      var h := Allowed(times[..n], limit);
      assert forall i :: 0 <= i < |h| ==> h[i] in times[..n];
    }
  }

  lemma SortedPrefix(times: seq<nat>, now: nat)
    requires Sorted(times + [now])
    ensures Sorted(times) && UpTo(times, now)
  {
    assert forall i :: 0 <= i < |times| ==> times[i] == (times + [now])[i];
    assert now == (times + [now])[|times|];
  }

  // ---------------------------------------------------------------- the in-memory form

  lemma MemoryStep(timestamps: seq<nat>, h: seq<nat>, limit: int, last: nat, now: nat)
    requires Since(timestamps, last - WINDOW_MS) == Since(h, last - WINDOW_MS) && last <= now
    ensures Since(MemoryAfter(timestamps, limit, last), now - WINDOW_MS)
      == Since(Recorded(h, limit, last), now - WINDOW_MS)
  {
    hide Since;
    var recent := Since(h, last - WINDOW_MS);
    SinceAgain(h, last - WINDOW_MS, now - WINDOW_MS);
    SinceAppend(h, last, now - WINDOW_MS);
    SinceAppend(recent, last, now - WINDOW_MS);
  }

  /** What pruning leaves is what it leaves of the whole history. */
  lemma {:induction false} MemoryPruning(times: seq<nat>, limit: int, now: nat)
    requires Sorted(times + [now])
    ensures Since(MemoryRun(times, limit), now - WINDOW_MS) == Since(Allowed(times, limit), now - WINDOW_MS)
    decreases |times|
  {
    if times != [] {
      hide MemoryAfter, Recorded, Since;
      var n := |times| - 1;
      SortedPrefix(times, now);
      assert times[..n] + [times[n]] == times;
      MemoryPruning(times[..n], limit, times[n]);
      MemoryStep(MemoryRun(times[..n], limit), Allowed(times[..n], limit), limit, times[n], now);
    }
  }

  /** The in-memory form refines the specification: same decision, count and oldest entry at every call. */
  lemma MemoryRefinesHistory(times: seq<nat>, limit: int, now: nat)
    requires Sorted(times + [now])
    ensures MemoryCheck(MemoryRun(times, limit), limit, now) == SpecCheck(Allowed(times, limit), limit, now)
  {
    MemoryPruning(times, limit, now);
  }

  // ---------------------------------------------------------------- the sorted set

  /** At and after `from`, the set has as many newer entries as the history. */
  ghost predicate Mirrors(scores: map<Member, nat>, h: seq<nat>, from: int) {
    forall t: int :: t >= from ==> |RemovedUpTo(scores, t)| == |Since(h, t)|
  }

  lemma RemoveAgain(scores: map<Member, nat>, a: int, b: int)
    requires a <= b
    ensures RemovedUpTo(RemovedUpTo(scores, a), b) == RemovedUpTo(scores, b)
  {
  }

  lemma RemoveFromAdded(scores: map<Member, nat>, m: Member, x: nat, t: int)
    requires m !in scores
    ensures |RemovedUpTo(scores[m := x], t)| == |RemovedUpTo(scores, t)| + if x > t then 1 else 0
  {
    if x > t {
      assert RemovedUpTo(scores[m := x], t) == RemovedUpTo(scores, t)[m := x];
    } else {
      assert RemovedUpTo(scores[m := x], t) == RemovedUpTo(scores, t);
    }
  }

  lemma PrunedMirrors(scores: map<Member, nat>, h: seq<nat>, from: int, to: int)
    requires Mirrors(scores, h, from) && from <= to
    ensures Mirrors(RemovedUpTo(scores, to), h, to)
  {
    forall t: int | t >= to ensures |RemovedUpTo(RemovedUpTo(scores, to), t)| == |Since(h, t)| {
      RemoveAgain(scores, to, t);
    }
  }

  lemma AddedMirrors(scores: map<Member, nat>, h: seq<nat>, from: int, m: Member, x: nat)
    requires Mirrors(scores, h, from) && m !in scores
    ensures Mirrors(scores[m := x], h + [x], from)
  {
    forall t: int | t >= from ensures |RemovedUpTo(scores[m := x], t)| == |Since(h + [x], t)| {
      RemoveFromAdded(scores, m, x, t);
      SinceAppend(h, x, t);
    }
  }

  lemma {:induction false} NothingSince(h: seq<nat>, t: int)
    requires UpTo(h, t)
    ensures Since(h, t) == []
  {
    if h != [] {
      NothingSince(h[..|h| - 1], t);
    }
  }

  /** A key Redis has expired held nothing that would still count. */
  lemma ExpiryLosesNothing(h: seq<nat>, from: int)
    requires UpTo(h, from)
    ensures Mirrors(map[], h, from)
  {
    forall t: int | t >= from ensures |RemovedUpTo(map[], t)| == |Since(h, t)| {
      NothingSince(h, t);
      assert RemovedUpTo(map[], t) == map[];
    }
  }

  /** The least score is the first entry of the recent history. */
  lemma OldestAgrees(scores: map<Member, nat>, h: seq<nat>, from: int)
    requires Sorted(h) && Mirrors(scores, h, from) && scores != map[] && RemovedUpTo(scores, from) == scores
    ensures Since(h, from) != [] && OldestScore(scores) == Since(h, from)[0]
  {
    var recent := Since(h, from);
    assert |RemovedUpTo(scores, from)| == |recent|;
    hide Since;
    SinceSorted(h, from);
    var o: int := recent[0];
    NoneBelow(scores, h, from, o);
    SomeAtMost(scores, h, from, o);
  }

  lemma NoneBelow(scores: map<Member, nat>, h: seq<nat>, from: int, o: int)
    requires Mirrors(scores, h, from) && RemovedUpTo(scores, from) == scores && o > from
    requires forall i :: 0 <= i < |Since(h, from)| ==> Since(h, from)[i] >= o
    ensures forall m :: m in scores ==> scores[m] >= o
  {
    hide Since;
    SinceAgain(h, from, o - 1);
    AllSince(Since(h, from), o - 1);
    assert |RemovedUpTo(scores, from)| == |Since(h, from)|;
    assert |RemovedUpTo(scores, o - 1)| == |scores|;
    SameSizeSameMap(scores, RemovedUpTo(scores, o - 1));
  }

  lemma SomeAtMost(scores: map<Member, nat>, h: seq<nat>, from: int, o: int)
    requires Mirrors(scores, h, from) && RemovedUpTo(scores, from) == scores && o > from
    requires Since(h, from) != [] && o == Since(h, from)[0]
    ensures exists m :: m in scores && scores[m] <= o
  {
    hide Since;
    SinceAgain(h, from, o);
    FirstGoes(Since(h, from));
    assert |RemovedUpTo(scores, from)| == |Since(h, from)|;
    assert |RemovedUpTo(scores, o)| < |scores|;
    assert RemovedUpTo(scores, o) != scores;
  }

  lemma SameSizeSameMap(scores: map<Member, nat>, part: map<Member, nat>)
    requires part.Keys <= scores.Keys && |part| == |scores|
    ensures part.Keys == scores.Keys
  {
    var rest := scores.Keys - part.Keys;
    assert scores.Keys == part.Keys + rest;
    assert |part.Keys + rest| == |part.Keys| + |rest|;
    assert rest == {};
  }

  lemma {:induction false} AllSince(h: seq<nat>, t: int)
    requires forall i :: 0 <= i < |h| ==> h[i] > t
    ensures Since(h, t) == h
  {
    if h != [] {
      AllSince(h[..|h| - 1], t);
    }
  }

  lemma {:induction false} FirstGoes(h: seq<nat>)
    requires h != []
    ensures |Since(h, h[0])| < |h|
  {
    if |h| > 1 {
      FirstGoes(h[..|h| - 1]);
    }
  }

  lemma MirrorsCounts(recent: map<Member, nat>, h: seq<nat>, from: int)
    requires Mirrors(recent, h, from) && RemovedUpTo(recent, from) == recent
    ensures |recent| == |Since(h, from)|
  {
    hide Since, RemovedUpTo;
  }

  lemma AddedIsRecent(recent: map<Member, nat>, from: int, member: Member, now: nat)
    requires RemovedUpTo(recent, from) == recent && now > from
    ensures RemovedUpTo(recent[member := now], from) == recent[member := now]
  {
    var after := recent[member := now];
    forall m | m in after ensures !(0 <= after[m] <= from) {
      assert m != member ==> m in RemovedUpTo(recent, from);
    }
  }

  lemma OldestAfter(recent: map<Member, nat>, h: seq<nat>, limit: int, now: nat, member: Member)
    requires Sorted(h) && UpTo(h, now)
    requires Mirrors(recent, h, now - WINDOW_MS) && RemovedUpTo(recent, now - WINDOW_MS) == recent && member !in recent
    ensures |recent| == |Since(h, now - WINDOW_MS)| && member in recent[member := now]
    ensures |recent| < limit ==> OldestScore(recent[member := now]) == SpecCheck(h, limit, now).oldest
    ensures |recent| >= limit ==>
      (if recent == map[] then now else OldestScore(recent)) == SpecCheck(h, limit, now).oldest
  {
    hide Since, Mirrors, RemovedUpTo, OldestScore;
    var from := now - WINDOW_MS;
    MirrorsCounts(recent, h, from);
    if |recent| < limit {
      var after := recent[member := now];
      assert member in after;
      AddedMirrors(recent, h, from, member, now);
      SinceAppend(h, now, from);
      AddedIsRecent(recent, from, member, now);
      OldestAgrees(after, h + [now], from);
    } else if recent != map[] {
      OldestAgrees(recent, h, from);
    }
  }

  // ---------------------------------------------------------------- the script, call by call

  /** What the script finds once it has pruned the set. */
  lemma FoundMirrors(z: Zset, h: seq<nat>, last: int, now: nat, gone: bool)
    requires Mirrors(z.scores, h, last - WINDOW_MS) && UpTo(h, last) && last <= now
    requires gone ==> h == [] || now >= last + WINDOW_MS
    ensures var recent := RemovedUpTo(Found(z, gone), now - WINDOW_MS);
      Mirrors(recent, h, now - WINDOW_MS) && RemovedUpTo(recent, now - WINDOW_MS) == recent
  {
    var to := now - WINDOW_MS;
    RemoveAgain(Found(z, gone), to, to);
    if gone {
      ExpiryLosesNothing(h, to);
      assert RemovedUpTo(map[], to) == map[];
    } else {
      PrunedMirrors(z.scores, h, last - WINDOW_MS, to);
    }
  }

  lemma CheckAgrees(z: Zset, h: seq<nat>, limit: int, call: RedisCall)
    requires var recent := RemovedUpTo(Found(z, call.gone), call.now - WINDOW_MS);
      && Mirrors(recent, h, call.now - WINDOW_MS) && RemovedUpTo(recent, call.now - WINDOW_MS) == recent
      && call.member !in recent
    requires Sorted(h) && UpTo(h, call.now)
    ensures RedisCheck(z, call.gone, limit, call.now, call.member) == SpecCheck(h, limit, call.now)
  {
    hide Since, Mirrors, OldestScore, RemovedUpTo, Found;
    OldestAfter(RemovedUpTo(Found(z, call.gone), call.now - WINDOW_MS), h, limit, call.now, call.member);
  }

  lemma AfterMirrors(z: Zset, h: seq<nat>, limit: int, call: RedisCall)
    requires var recent := RemovedUpTo(Found(z, call.gone), call.now - WINDOW_MS);
      && Mirrors(recent, h, call.now - WINDOW_MS) && RemovedUpTo(recent, call.now - WINDOW_MS) == recent
      && call.member !in recent
    requires Sorted(h) && UpTo(h, call.now)
    ensures Mirrors(RedisAfter(z, call.gone, limit, call.now, call.member).scores, Recorded(h, limit, call.now),
      call.now - WINDOW_MS)
  {
    hide Since, Mirrors, OldestScore, RemovedUpTo, Found;
    var recent := RemovedUpTo(Found(z, call.gone), call.now - WINDOW_MS);
    OldestAfter(recent, h, limit, call.now, call.member);
    AddedMirrors(recent, h, call.now - WINDOW_MS, call.member, call.now);
  }

  lemma StillAbsent(z: Zset, gone: bool, now: nat, member: Member)
    requires member !in z.scores
    ensures member !in RemovedUpTo(Found(z, gone), now - WINDOW_MS)
  {
  }

  lemma RedisStep(z: Zset, h: seq<nat>, last: int, limit: int, call: RedisCall)
    requires Mirrors(z.scores, h, last - WINDOW_MS) && Sorted(h) && UpTo(h, last) && last <= call.now
    requires call.gone ==> h == [] || call.now >= last + WINDOW_MS
    requires call.member !in z.scores
    ensures RedisCheck(z, call.gone, limit, call.now, call.member) == SpecCheck(h, limit, call.now)
    ensures Mirrors(RedisAfter(z, call.gone, limit, call.now, call.member).scores, Recorded(h, limit, call.now),
      call.now - WINDOW_MS)
    ensures Sorted(Recorded(h, limit, call.now)) && UpTo(Recorded(h, limit, call.now), call.now)
  {
    hide SpecCheck, Mirrors, OldestScore, RemovedUpTo, Found, RedisAfter, RedisCheck;
    FoundMirrors(z, h, last, call.now, call.gone);
    StillAbsent(z, call.gone, call.now, call.member);
    CheckAgrees(z, h, limit, call);
    AfterMirrors(z, h, limit, call);
  }

  function LastTime(calls: seq<RedisCall>): int {
    if calls == [] then 0 else calls[|calls| - 1].now
  }

  ghost predicate MembersKnown(calls: seq<RedisCall>, scores: map<Member, nat>) {
    forall m :: m in scores ==> exists i :: 0 <= i < |calls| && calls[i].member == m
  }

  /** What a run of the script leaves behind. */
  ghost predicate RedisInv(calls: seq<RedisCall>, limit: int) {
    var z, h := RedisRun(calls, limit), Allowed(Times(calls), limit);
    && MembersKnown(calls, z.scores)
    && (calls == [] ==> h == []) && (calls != [] ==> z.deadline == LastTime(calls) + WINDOW_MS)
    && Mirrors(z.scores, h, LastTime(calls) - WINDOW_MS) && Sorted(h) && UpTo(h, LastTime(calls))
  }

  lemma GenuinePrefix(calls: seq<RedisCall>, limit: int)
    requires Genuine(calls, limit) && calls != []
    ensures var n := |calls| - 1;
      && Genuine(calls[..n], limit) && LastTime(calls[..n]) <= calls[n].now
      && (calls[n].gone ==> calls[n].now >= RedisRun(calls[..n], limit).deadline)
  {
    var n := |calls| - 1;
    assert forall i :: 0 <= i <= n ==> calls[..n][..i] == calls[..i];
  }

  lemma NextCall(calls: seq<RedisCall>, limit: int)
    requires Genuine(calls, limit) && calls != [] && RedisInv(calls[..|calls| - 1], limit)
    ensures var n := |calls| - 1;
      var z, h, last, call := RedisRun(calls[..n], limit), Allowed(Times(calls[..n]), limit), LastTime(calls[..n]),
        calls[n];
      && Mirrors(z.scores, h, last - WINDOW_MS) && Sorted(h) && UpTo(h, last) && last <= call.now
      && (call.gone ==> h == [] || call.now >= last + WINDOW_MS) && call.member !in z.scores
  {
    hide Mirrors, RedisRun, Allowed;
    GenuinePrefix(calls, limit);
  }

  lemma MembersStayKnown(calls: seq<RedisCall>, limit: int)
    requires calls != [] && MembersKnown(calls[..|calls| - 1], RedisRun(calls[..|calls| - 1], limit).scores)
    ensures MembersKnown(calls, RedisRun(calls, limit).scores)
  {
    var n := |calls| - 1;
    var z := RedisRun(calls[..n], limit);
    forall m | m in RedisRun(calls, limit).scores ensures exists i :: 0 <= i < |calls| && calls[i].member == m {
      if m == calls[n].member {
      } else {
        assert m in z.scores;
        var i :| 0 <= i < |calls[..n]| && calls[..n][i].member == m;
        assert calls[i].member == m;
      }
    }
  }

  lemma RunUnfolds(calls: seq<RedisCall>, limit: int)
    requires calls != []
    ensures var n := |calls| - 1;
      && RedisRun(calls, limit)
           == RedisAfter(RedisRun(calls[..n], limit), calls[n].gone, limit, calls[n].now, calls[n].member)
      && RedisRun(calls, limit).deadline == calls[n].now + WINDOW_MS
      && Allowed(Times(calls), limit) == Recorded(Allowed(Times(calls[..n]), limit), limit, calls[n].now)
      && LastTime(calls) == calls[n].now
  {
    hide RemovedUpTo, Recorded;
    var n := |calls| - 1;
    assert Times(calls)[..n] == Times(calls[..n]);
  }

  lemma {:induction false} RedisRunMirrors(calls: seq<RedisCall>, limit: int)
    requires Genuine(calls, limit)
    ensures RedisInv(calls, limit)
  {
    if calls == [] {
      NothingMirrors(0 - WINDOW_MS);
    } else {
      hide Mirrors, Since, RedisCheck, RedisAfter, Recorded, MembersKnown, Genuine, RedisRun, Allowed, Sorted, UpTo,
        Times, LastTime;
      var n := |calls| - 1;
      GenuinePrefix(calls, limit);
      RedisRunMirrors(calls[..n], limit);
      NextCall(calls, limit);
      RedisStep(RedisRun(calls[..n], limit), Allowed(Times(calls[..n]), limit), LastTime(calls[..n]), limit, calls[n]);
      MembersStayKnown(calls, limit);
      RunUnfolds(calls, limit);
    }
  }

  lemma NothingMirrors(from: int)
    ensures Mirrors(map[], [], from)
  {
    assert forall t: int :: RemovedUpTo(map[], t) == map[];
  }

  /** The script refines the same specification, whenever Redis lets the key expire. */
  lemma RedisRefinesHistory(calls: seq<RedisCall>, limit: int, call: RedisCall)
    requires Genuine(calls + [call], limit)
    ensures RedisCheck(RedisRun(calls, limit), call.gone, limit, call.now, call.member)
         == SpecCheck(Allowed(Times(calls), limit), limit, call.now)
  {
    hide Mirrors, Since, RedisCheck, Recorded, Genuine;
    var n := |calls|;
    assert (calls + [call])[..n] == calls;
    GenuinePrefix(calls + [call], limit);
    RedisRunMirrors(calls, limit);
    NextCall(calls + [call], limit);
    RedisStep(RedisRun(calls, limit), Allowed(Times(calls), limit), LastTime(calls), limit, call);
  }
}
