/** Retry schedule, priorities and status classes of the webhook queue (src/webhook/webhook.constants.ts). */
module WebhookConstants {
  import opened Options

  const DELIVERY_TIMEOUT_MS: nat := 10_000
  const MAX_ATTEMPTS: nat := 5
  const WEBHOOK_KEY_TTL_S: nat := 48 * 60 * 60
  const BACKOFF_SCHEDULE_MS: seq<nat> := [60_000, 300_000, 1_800_000, 7_200_000, 43_200_000]
  const JITTER_RATIO: real := 0.2
  const DEFAULT_PRIORITY: nat := 3

  function PriorityFor(event: string): nat {
    if event == "payment.confirmed" then 1
    else if event == "session.expired" then 2
    else if event == "payment.failed" then 2
    else if event == "session.created" then 3
    else if event == "session.cancelled" then 3
    else DEFAULT_PRIORITY
  }

  function Max(a: int, b: int): int { if a < b then b else a }

  function Min(a: int, b: int): int { if a < b then a else b }

  /** `Math.round`: halves go up. */
  function Round(x: real): int {
    (x + 0.5).Floor
  }

  function BaseBackoffMs(attempt: int): nat {
    BACKOFF_SCHEDULE_MS[Min(Max(attempt, 1), |BACKOFF_SCHEDULE_MS|) - 1]
  }

  /** `rand` is what the random source returned. */
  function ApplyJitter(baseMs: nat, rand: real): int {
    var offset := (rand * 2.0 - 1.0) * JITTER_RATIO;
    Round(baseMs as real * (1.0 + offset))
  }

  function BackoffDelayMs(attempt: int, rand: real): int {
    ApplyJitter(BaseBackoffMs(attempt), rand)
  }

  datatype Outcome = Success | Retry | Dead

  function ClassifyStatus(status: int): Outcome {
    if 200 <= status < 300 then Success
    else if status == 408 || status == 429 then Retry
    else if 400 <= status < 500 then Dead
    else Retry
  }

  // ---------------------------------------------------------------- backoff arithmetic

  predicate IsRandom(rand: real) {
    0.0 <= rand <= 1.0
  }

  /** Jitter moves an interval by at most a fifth, exactly so when the interval is a multiple of five. */
  lemma JitterWithinRatio(baseMs: nat, rand: real)
    requires IsRandom(rand) && baseMs % 5 == 0
    ensures 4 * baseMs <= 5 * ApplyJitter(baseMs, rand) <= 6 * baseMs
  {
    var factor := 1.0 + (rand * 2.0 - 1.0) * JITTER_RATIO;
    assert 0.8 <= factor <= 1.2;
    assert ApplyJitter(baseMs, rand) == Round(baseMs as real * factor);
    ScaledWithin(baseMs / 5, factor);
    RoundWithin(4 * (baseMs / 5), baseMs as real * factor, 6 * (baseMs / 5));
  }

  lemma ScaledWithin(fifth: nat, factor: real)
    requires 0.8 <= factor <= 1.2
    ensures (4 * fifth) as real <= (5 * fifth) as real * factor <= (6 * fifth) as real
  {
    var f := fifth as real;
    ScaleBounds(f, 0.8, factor, 1.2);
    assert (5 * fifth) as real * factor == 5.0 * (f * factor);
  }

  lemma RoundWithin(lo: int, x: real, hi: int)
    requires lo as real <= x <= hi as real
    ensures lo <= Round(x) <= hi
  {
  }

  lemma ScaleBounds(b: real, lo: real, x: real, hi: real)
    requires b >= 0.0 && lo <= x <= hi
    ensures b * lo <= b * x <= b * hi
  {
    assert b * (x - lo) >= 0.0 && b * (hi - x) >= 0.0;
  }

  /** Every delay the schedule can produce lies within a fifth of its base interval. */
  lemma DelayWithinRatio(attempt: int, rand: real)
    requires IsRandom(rand)
    ensures 4 * BaseBackoffMs(attempt) <= 5 * BackoffDelayMs(attempt, rand) <= 6 * BaseBackoffMs(attempt)
    ensures BackoffDelayMs(attempt, rand) > 0
  {
    var i := Min(Max(attempt, 1), 5) - 1;
    assert i == 0 || i == 1 || i == 2 || i == 3 || i == 4;
    assert BaseBackoffMs(attempt) % 5 == 0;
    JitterWithinRatio(BaseBackoffMs(attempt), rand);
  }

  /** The schedule in minutes, and the jitter: the delay is the integer nearest to 0.8 to 1.2 times the interval of the
      attempt, halves up. */
  lemma DelayIsNearest(attempt: int, rand: real)
    ensures var minutes := if attempt <= 1 then 1 else if attempt == 2 then 5 else if attempt == 3 then 30
                           else if attempt == 4 then 120 else 720;
      var exact := (60_000 * minutes) as real * (0.8 + 0.4 * rand);
      exact - 0.5 < BackoffDelayMs(attempt, rand) as real <= exact + 0.5
  {
    var base := BaseBackoffMs(attempt);
    assert 1.0 + (rand * 2.0 - 1.0) * JITTER_RATIO == 0.8 + 0.4 * rand;
    assert BackoffDelayMs(attempt, rand) == Round(base as real * (0.8 + 0.4 * rand));
  }

  /** Whatever the two jitters, the wait after a later attempt is longer, until the schedule's end. */
  lemma DelaysIncrease(attempt: int, later: int, rand: real, rand': real)
    requires IsRandom(rand) && IsRandom(rand')
    requires 1 <= attempt < later <= |BACKOFF_SCHEDULE_MS|
    ensures BackoffDelayMs(attempt, rand) < BackoffDelayMs(later, rand')
  {
    DelayWithinRatio(attempt, rand);
    DelayWithinRatio(later, rand');
    assert attempt == 1 || attempt == 2 || attempt == 3 || attempt == 4;
    assert later == 2 || later == 3 || later == 4 || later == 5;
  }

  lemma OneMore(n: nat, k: int)
    ensures (n + 1) * k == k + n * k
  {
  }
}
