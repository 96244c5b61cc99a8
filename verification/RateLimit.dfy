/** The sliding-window rate limiter: its in-memory form, its Redis script, and the service that switches between them
    (src/api/middleware/rate-limit.service.ts). */
module RateLimit {
  import opened Options

  type Keyspace = nat

  const WINDOW_MS: nat := 60_000

  datatype RateLimitResult = RateLimitResult(
    allowed: bool, limit: int, remaining: int, resetSeconds: int, retryAfterSeconds: int, degraded: bool)

  /** What either backend reports: the decision, the requests in the window with this one, and the oldest of them. */
  datatype Checked = Checked(allowed: bool, count: nat, oldest: nat)

  /** A sorted-set member, `<now>:<random>`. */
  datatype Member = Member(now: nat, random: nat)

  /** A sorted set and the time its key expires. */
  datatype Zset = Zset(scores: map<Member, nat>, deadline: int)

  const NO_KEY := Zset(map[], 0)

  function Max(a: int, b: int): int {
    if a < b then b else a
  }

  function CeilDiv(a: int, b: int): int
    requires b > 0
  {
    (a + b - 1) / b
  }

  /** `timestamps.filter((t) => t > start)` */
  function Since(timestamps: seq<nat>, start: int): seq<nat> {
    if timestamps == [] then []
    else
      var n := |timestamps| - 1;
      Since(timestamps[..n], start) + if timestamps[n] > start then [timestamps[n]] else []
  }

  function MemoryAfter(timestamps: seq<nat>, limit: int, now: nat): seq<nat> {
    var recent := Since(timestamps, now - WINDOW_MS);
    if |recent| < limit then recent + [now] else recent
  }

  function MemoryCheck(timestamps: seq<nat>, limit: int, now: nat): Checked {
    var after := MemoryAfter(timestamps, limit, now);
    Checked(|Since(timestamps, now - WINDOW_MS)| < limit, |after|, if after == [] then now else after[0])
  }

  /** ZREMRANGEBYSCORE key 0 limit */
  function RemovedUpTo(scores: map<Member, nat>, limit: int): map<Member, nat> {
    map m | m in scores && !(0 <= scores[m] <= limit) :: scores[m]
  }

  /** The key as the script finds it: `gone` when Redis has already expired it. */
  function Found(z: Zset, gone: bool): map<Member, nat> {
    if gone then map[] else z.scores
  }

  function RedisAfter(z: Zset, gone: bool, limit: int, now: nat, member: Member): Zset {
    var recent := RemovedUpTo(Found(z, gone), now - WINDOW_MS);
    Zset(if |recent| < limit then recent[member := now] else recent, now + WINDOW_MS)
  }

  ghost function OldestScore(scores: map<Member, nat>): (oldest: nat)
    requires scores != map[]
    ensures exists m :: m in scores && scores[m] == oldest
    ensures forall m :: m in scores ==> oldest <= scores[m]
  {
    var m :| m in scores;
    var rest := scores - {m};
    if rest == map[] then
      assert forall x :: x in scores ==> x == m || x in rest;
      scores[m]
    else
      var o := OldestScore(rest);
      assert forall x :: x in scores ==> x == m || x in rest;
      if scores[m] < o then scores[m] else o
  }

  ghost function RedisCheck(z: Zset, gone: bool, limit: int, now: nat, member: Member): Checked {
    var recent := RemovedUpTo(Found(z, gone), now - WINDOW_MS);
    var after := RedisAfter(z, gone, limit, now, member).scores;
    Checked(|recent| < limit, |recent| + (if |recent| < limit then 1 else 0), if after == map[] then now
      else OldestScore(after))
  }

  function BuildResult(c: Checked, limit: int, now: nat, degraded: bool): RateLimitResult {
    var resetMs := c.oldest + WINDOW_MS;
    RateLimitResult(c.allowed, limit, Max(0, limit - c.count), CeilDiv(resetMs, 1000),
                    if c.allowed then 0 else Max(1, CeilDiv(resetMs - now, 1000)), degraded)
  }

  // ---------------------------------------------------------------- the service

  /** What happens to the call to Redis: served; no ready client; failed before or after the script ran. */
  datatype Backend = Healthy | NotReady | FailedBefore | FailedAfter

  predicate ScriptRuns(backend: Backend) {
    backend.Healthy? || backend.FailedAfter?
  }

  function FallbackLimit(limit: int, degradedLimit: Option<int>): int {
    match degradedLimit case Some(d) => d case None => Max(1, limit / 2)
  }

  /** The answer to one call, from what either store holds for the key. */
  ghost function Answer(
      z: Zset, timestamps: seq<nat>, limit: int, degradedLimit: Option<int>, now: nat, backend: Backend, gone: bool,
        member: Member): RateLimitResult
  {
    var fallback := FallbackLimit(limit, degradedLimit);
    if backend.Healthy? then BuildResult(RedisCheck(z, gone, limit, now, member), limit, now, false)
    else BuildResult(MemoryCheck(timestamps, fallback, now), fallback, now, true)
  }

  class RedisServer {
    var zsets: map<Keyspace, Zset>

    function At(key: Keyspace): Zset
      reads this
    {
      if key in zsets then zsets[key] else NO_KEY
    }

    /** The script; `gone` is whether the key had expired. */
    method SlidingWindow(key: Keyspace, gone: bool, limit: int, now: nat, member: Member)
      returns (allowed: bool, count: nat, oldestScore: nat)
      modifies this
      ensures zsets == old(zsets)[key := RedisAfter(old(At(key)), gone, limit, now, member)]
      ensures Checked(allowed, count, oldestScore) == RedisCheck(old(At(key)), gone, limit, now, member)
      ensures key in zsets && zsets[key].deadline == now + 60_000
    {
      hide OldestScore, RemovedUpTo, Found;
      var scores := RemovedUpTo(Found(At(key), gone), now - WINDOW_MS);
      count, allowed := |scores|, false;
      if count < limit {
        scores := scores[member := now];
        count := count + 1;
        allowed := true;
      }
      zsets := zsets[key := Zset(scores, now + WINDOW_MS)];
      oldestScore := FirstByScore(scores, now);
    }

    /** ZRANGE key 0 0 WITHSCORES, or `otherwise` when there is none. */
    static method FirstByScore(scores: map<Member, nat>, otherwise: nat) returns (score: nat)
      ensures score == if scores == map[] then otherwise else OldestScore(scores)
    {
      if scores == map[] {
        return otherwise;
      }
      var m :| m in scores;
      score := scores[m];
      var rest := scores.Keys - {m};
      while rest != {}
        invariant rest <= scores.Keys
        invariant exists x :: x in scores && scores[x] == score
        invariant forall x :: x in scores && x !in rest ==> score <= scores[x]
      {
        var x :| x in rest;
        if scores[x] < score {
          score := scores[x];
        }
        rest := rest - {x};
      }
    }
  }

  class RateLimitService {
    const redis: RedisServer
    var memoryStore: map<Keyspace, seq<nat>>

    constructor (redis: RedisServer)
      ensures this.redis == redis && memoryStore == map[]
    {
      this.redis := redis;
      memoryStore := map[];
    }

    function Timestamps(key: Keyspace): seq<nat>
      reads this
    {
      if key in memoryStore then memoryStore[key] else []
    }

    method CheckMemory(key: Keyspace, limit: int, now: nat) returns (result: RateLimitResult)
      modifies this`memoryStore
      ensures memoryStore == old(memoryStore)[key := MemoryAfter(old(Timestamps(key)), limit, now)]
      ensures result == BuildResult(MemoryCheck(old(Timestamps(key)), limit, now), limit, now, true)
      ensures result.degraded && result.limit == limit && (result.retryAfterSeconds == 0 <==> result.allowed)
    {
      var timestamps := Since(Timestamps(key), now - WINDOW_MS);
      var count, allowed := |timestamps|, false;
      if count < limit {
        timestamps := timestamps + [now];
        allowed := true;
      }
      memoryStore := memoryStore[key := timestamps];
      var oldestScore := if |timestamps| > 0 then timestamps[0] else now;
      result := BuildResult(Checked(allowed, if allowed then count + 1 else count, oldestScore), limit, now, true);
    }

    /** `backend`, `gone` and `member` stand for the connection, for key expiry and for the random member. */
    method Check(key: Keyspace, limit: int, degradedLimit: Option<int>, now: nat, backend: Backend, gone: bool,
          member: Member)
      returns (result: RateLimitResult)
      modifies this`memoryStore, redis
      ensures redis.zsets == if ScriptRuns(backend)
        then old(redis.zsets)[key := RedisAfter(old(redis.At(key)), gone, limit, now, member)] else old(redis.zsets)
      ensures memoryStore == if backend.Healthy? then old(memoryStore)
        else old(memoryStore)[key := MemoryAfter(old(Timestamps(key)), FallbackLimit(limit, degradedLimit), now)]
      ensures result == Answer(old(redis.At(key)), old(Timestamps(key)), limit, degradedLimit, now, backend, gone,
        member)
      ensures result.degraded <==> backend != Healthy
      ensures backend == Healthy ==> result.limit == limit
      ensures backend != Healthy && degradedLimit.Some? ==> result.limit == degradedLimit.value
      ensures backend != Healthy && degradedLimit.None? ==> result.limit == if limit < 4 then 1 else limit / 2
      ensures result.retryAfterSeconds == 0 <==> result.allowed
    {
      var fallbackLimit := if degradedLimit.Some? then degradedLimit.value else Max(1, limit / 2);
      if backend == NotReady {
        result := CheckMemory(key, fallbackLimit, now);
        return;
      }
      if backend != FailedBefore {
        var allowed, count, oldestScore := redis.SlidingWindow(key, gone, limit, now, member);
        if backend == Healthy {
          result := BuildResult(Checked(allowed, count, oldestScore), limit, now, false);
          return;
        }
      }
      result := CheckMemory(key, fallbackLimit, now);
    }
  }
}
