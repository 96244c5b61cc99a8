/** How long a session of failing deliveries takes: the retry schedule as `process` follows it, and the stages a session
    passes through while the clock runs. */
module WebhookQueueClock {
  import opened Options
  import opened WebhookConstants
  import opened WebhookQueueState

  // ---------------------------------------------------------------- one delivery that always fails

  /** One attempt: the time from becoming due, or from its turn if that is later, to the response, and the jitter drawn
      after it. */
  datatype Try = Try(serviceMs: nat, rand: real)

  function Failure(): DeliveryResult {
    DeliveryResult(Retry, None, Some("timeout"))
  }

  /** When and after how many attempts a delivery is dead-lettered that fails every time, or nothing if it outlives the
      tries. */
  function DeadAfter(job: Job, tries: seq<Try>): Option<(int, nat)>
    decreases |tries|
  {
    if tries == [] then None
    else
      var now := job.availableAt + tries[0].serviceMs;
      match Judge(job, Failure(), now, tries[0].rand)
      case Deliver => None
      case Condemn(_) => Some((now, 1))
      case Again(at) =>
        OneMoreTry(DeadAfter(job.(attempt := job.attempt + 1, availableAt := at), tries[1..]))
  }

  function ServiceMs(tries: seq<Try>): nat
    requires |tries| >= 5
  {
    tries[0].serviceMs + tries[1].serviceMs + tries[2].serviceMs + tries[3].serviceMs + tries[4].serviceMs
  }

  function WaitMs(tries: seq<Try>): int
    requires |tries| >= 4
  {
    BackoffDelayMs(1, tries[0].rand) + BackoffDelayMs(2, tries[1].rand) + BackoffDelayMs(3, tries[2].rand)
      + BackoffDelayMs(4, tries[3].rand)
  }

  lemma FailsTwice(job: Job, tries: seq<Try>)
    requires job.attempt == 0 && |tries| >= 2
    ensures DeadAfter(job, tries)
      == OneMoreTry(OneMoreTry(DeadAfter(Retried(Retried(job, tries[0]), tries[1]), tries[2..])))
  {
    hide DeadAfter, BackoffDelayMs;
    FailsAgain(job, tries);
    FailsAgain(Retried(job, tries[0]), tries[1..]);
    assert tries[1..][1..] == tries[2..];
  }

  lemma FewTries(job: Job, tries: seq<Try>)
    requires job.attempt == 0 && |tries| < 2
    ensures DeadAfter(job, tries) == None
  {
    if |tries| == 1 {
      FailsAgain(job, tries);
    }
  }

  /** The first four failures each lead to a wait of the schedule, the fifth to the dead letters: the twelve-hour
      interval never occurs. */
  lemma FourWaitsThenDead(job: Job, tries: seq<Try>)
    requires job.attempt == 0
    ensures |tries| < 5 ==> DeadAfter(job, tries) == None
    ensures |tries| >= 5 ==> DeadAfter(job, tries) == Some((job.availableAt + ServiceMs(tries) + WaitMs(tries), 5))
  {
    hide DeadAfter, BackoffDelayMs;
    if |tries| < 2 {
      FewTries(job, tries);
    } else {
      FailsTwice(job, tries);
      if |tries| > 2 {
        ThreeMoreFailures(Retried(Retried(job, tries[0]), tries[1]), tries[2..]);
      } else {
        NoTries(Retried(Retried(job, tries[0]), tries[1]), tries[2..]);
      }
    }
  }

  lemma NoTries(job: Job, tries: seq<Try>)
    requires tries == []
    ensures DeadAfter(job, tries) == None
  {
  }

  lemma ThreeMoreFailures(job: Job, tries: seq<Try>)
    requires job.attempt == 2 && tries != []
    ensures |tries| < 3 ==> DeadAfter(job, tries) == None
    ensures |tries| >= 3 ==> DeadAfter(job, tries) == Some((
      job.availableAt + tries[0].serviceMs + BackoffDelayMs(3, tries[0].rand)
        + tries[1].serviceMs + BackoffDelayMs(4, tries[1].rand) + tries[2].serviceMs, 3))
  {
    hide BackoffDelayMs;
    var j1, t1 := Retried(job, tries[0]), tries[1..];
    FailsAgain(job, tries);
    if |tries| > 1 {
      var j2, t2 := Retried(j1, tries[1]), tries[2..];
      assert t1[1..] == t2;
      FailsAgain(j1, t1);
      if |tries| > 2 {
        FailsForGood(j2, t2);
      }
    }
  }

  /** The job after one more failure. */
  function Retried(job: Job, t: Try): Job {
    job.(attempt := job.attempt + 1,
      availableAt := job.availableAt + t.serviceMs + BackoffDelayMs(job.attempt + 1, t.rand))
  }

  lemma JudgeFailure(job: Job, now: int, rand: real)
    ensures job.attempt >= 4 ==> Judge(job, Failure(), now, rand) == Condemn(MaxAttempts)
    ensures job.attempt < 4 ==> Judge(job, Failure(), now, rand) == Again(now + BackoffDelayMs(job.attempt + 1, rand))
  {
    hide BackoffDelayMs;
  }

  function OneMoreTry(rest: Option<(int, nat)>): Option<(int, nat)> {
    match rest case None => None case Some(end) => Some((end.0, end.1 + 1))
  }

  lemma DeadAfterUnfolds(job: Job, tries: seq<Try>, at: int)
    requires tries != []
    requires Judge(job, Failure(), job.availableAt + tries[0].serviceMs, tries[0].rand) == Again(at)
    ensures DeadAfter(job, tries)
      == OneMoreTry(DeadAfter(job.(attempt := job.attempt + 1, availableAt := at), tries[1..]))
  {
    hide Judge, Failure, OneMoreTry;
  }

  lemma FailsAgain(job: Job, tries: seq<Try>)
    requires tries != [] && job.attempt < 4
    ensures DeadAfter(job, tries) == OneMoreTry(DeadAfter(Retried(job, tries[0]), tries[1..]))
  {
    hide BackoffDelayMs, Judge, Failure, DeadAfter, OneMoreTry;
    JudgeFailure(job, job.availableAt + tries[0].serviceMs, tries[0].rand);
    DeadAfterUnfolds(job, tries, Retried(job, tries[0]).availableAt);
  }

  lemma FailsForGood(job: Job, tries: seq<Try>)
    requires tries != [] && job.attempt >= 4
    ensures DeadAfter(job, tries) == Some((job.availableAt + tries[0].serviceMs, 1))
  {
    JudgeFailure(job, job.availableAt + tries[0].serviceMs, tries[0].rand);
    hide BackoffDelayMs, Judge, Failure;
  }

  /** Responses within the timeout, dispatches within the latency, jitters within range. */
  predicate Prompt(tries: seq<Try>, latencyMs: nat) {
    |tries| == 5 && forall i :: 0 <= i < 5 ==>
      tries[i].serviceMs <= DELIVERY_TIMEOUT_MS + latencyMs && IsRandom(tries[i].rand)
  }

  /** The waits of one delivery total between 7488 and 11232 seconds. */
  lemma WaitsBounded(tries: seq<Try>, latencyMs: nat)
    requires Prompt(tries, latencyMs)
    ensures 7_488_000 <= WaitMs(tries) <= 11_232_000
  {
    DelayWithinRatio(1, tries[0].rand);
    DelayWithinRatio(2, tries[1].rand);
    DelayWithinRatio(3, tries[2].rand);
    DelayWithinRatio(4, tries[3].rand);
  }

  function JobBoundMs(latencyMs: nat): nat {
    11_232_000 + MAX_ATTEMPTS * (DELIVERY_TIMEOUT_MS + latencyMs)
  }

  // ---------------------------------------------------------------- a session of them

  /** Each delivery has its turn when the one before is dead-lettered: when the last one is. */
  function LastDeadAt(job: Job, deliveries: seq<seq<Try>>): Option<int> {
    if deliveries == [] then Some(job.availableAt)
    else
      match LastDeadAt(job, deliveries[..|deliveries| - 1])
      case None => None
      case Some(turn) =>
        match DeadAfter(job.(availableAt := turn), deliveries[|deliveries| - 1])
        case None => None
        case Some(end) => Some(end.0)
  }

  predicate AllPrompt(deliveries: seq<seq<Try>>, latencyMs: nat) {
    forall i :: 0 <= i < |deliveries| ==> Prompt(deliveries[i], latencyMs)
  }

  lemma {:induction false} SessionBounded(job: Job, deliveries: seq<seq<Try>>, latencyMs: nat)
    requires job.attempt == 0 && AllPrompt(deliveries, latencyMs)
    ensures LastDeadAt(job, deliveries).Some?
    ensures LastDeadAt(job, deliveries).value <= job.availableAt + |deliveries| * JobBoundMs(latencyMs)
    ensures JobBoundMs(latencyMs) == 11_282_000 + 5 * latencyMs
  {
    if deliveries != [] {
      var n := |deliveries| - 1;
      hide BackoffDelayMs;
      SessionBounded(job, deliveries[..n], latencyMs);
      FourWaitsThenDead(job.(availableAt := LastDeadAt(job, deliveries[..n]).value), deliveries[n]);
      WaitsBounded(deliveries[n], latencyMs);
      OneMore(n, JobBoundMs(latencyMs));
    }
  }

  /** The slowest delivery, with a random number below one. */
  function Slowest(): seq<Try> {
    seq(5, _ => Try(DELIVERY_TIMEOUT_MS, 0.9999999999))
  }

  lemma SlowestIsExact(job: Job)
    requires job.attempt == 0
    ensures Prompt(Slowest(), 0) && DeadAfter(job, Slowest()) == Some((job.availableAt + JobBoundMs(0), 5))
  {
    FourWaitsThenDead(job, Slowest());
    assert ApplyJitter(60_000, 0.9999999999) == 72_000;
    assert ApplyJitter(300_000, 0.9999999999) == 360_000;
    assert ApplyJitter(1_800_000, 0.9999999999) == 2_160_000;
    assert ApplyJitter(7_200_000, 0.9999999999) == 8_640_000;
  }

  lemma LastUnfolds(job: Job, deliveries: seq<seq<Try>>, turn: int, end: (int, nat))
    requires deliveries != [] && LastDeadAt(job, deliveries[..|deliveries| - 1]) == Some(turn)
    requires DeadAfter(job.(availableAt := turn), deliveries[|deliveries| - 1]) == Some(end)
    ensures LastDeadAt(job, deliveries) == Some(end.0)
  {
    hide DeadAfter;
  }

  function SlowestSession(n: nat): seq<seq<Try>> {
    seq(n, _ => Slowest())
  }

  lemma SlowestStep(job: Job, n: nat, turn: int)
    requires job.attempt == 0 && n > 0 && LastDeadAt(job, SlowestSession(n - 1)) == Some(turn)
    ensures LastDeadAt(job, SlowestSession(n)) == Some(turn + JobBoundMs(0))
  {
    hide DeadAfter, Slowest, LastDeadAt, JobBoundMs;
    assert SlowestSession(n)[..n - 1] == SlowestSession(n - 1);
    SlowestIsExact(job.(availableAt := turn));
    LastUnfolds(job, SlowestSession(n), turn, (turn + JobBoundMs(0), 5));
  }

  lemma {:induction false} SlowestSessionIsExact(job: Job, n: nat)
    requires job.attempt == 0
    ensures LastDeadAt(job, SlowestSession(n)) == Some(job.availableAt + n * JobBoundMs(0))
  {
    if n == 0 {
      assert SlowestSession(0) == [];
    } else {
      hide LastDeadAt, SlowestSession, JobBoundMs;
      SlowestSessionIsExact(job, n - 1);
      SlowestStep(job, n, job.availableAt + (n - 1) * JobBoundMs(0));
      OneMore(n - 1, JobBoundMs(0));
    }
  }

  /** With prompt ticks, the last of n always-failing deliveries enqueued together is dead-lettered within the lifetime
      of the keys written for it, whatever the responses and jitters, if and only if n is at most fifteen. */
  lemma FailingJobsFitIff(job: Job, n: nat)
    requires job.attempt == 0
    ensures (forall deliveries :: |deliveries| == n && AllPrompt(deliveries, 0) ==>
               LastDeadAt(job, deliveries).Some?
                 && LastDeadAt(job, deliveries).value <= job.availableAt + WEBHOOK_KEY_TTL_S * 1000)
      <==> n <= 15
  {
    hide DeadAfter, LastDeadAt, Slowest, Prompt;
    if n <= 15 {
      forall deliveries: seq<seq<Try>> | |deliveries| == n && AllPrompt(deliveries, 0)
        ensures LastDeadAt(job, deliveries).Some?
          && LastDeadAt(job, deliveries).value <= job.availableAt + WEBHOOK_KEY_TTL_S * 1000
      {
        SessionBounded(job, deliveries, 0);
      }
    } else {
      SlowestIsExact(job);
      SlowestSessionIsExact(job, n);
      assert |SlowestSession(n)| == n && AllPrompt(SlowestSession(n), 0);
    }
  }

  // ---------------------------------------------------------------- stages of a session

  /** Where a session stands: nothing waiting; its head waiting for its turn since `ready`; its head being requested
      since `since`; its head having its next attempt, at `due`, written; or its head giving up its place. `waiting`
      counts the deliveries with a place, without the one giving it up. */
  datatype Stage =
    | Done
    | Ready(waiting: nat, head: DeliveryId, ready: int, attempt: nat)
    | Busy(waiting: nat, head: DeliveryId, since: int, attempt: nat)
    | Retrying(waiting: nat, head: DeliveryId, due: int, attempt: nat)
    | Closing(waiting: nat, head: DeliveryId)

  /** The longest wait after the k-th failure. */
  function LongestWait(k: nat): nat {
    if k == 0 then 0 else if k == 1 then 72_000 else if k == 2 then 360_000 else if k == 3 then 2_160_000 else 8_640_000
  }

  lemma WaitsAtMost(k: nat, rand: real)
    requires 1 <= k <= 4 && IsRandom(rand)
    ensures 0 < BackoffDelayMs(k, rand) <= LongestWait(k)
  {
    DelayWithinRatio(k, rand);
  }

  /** What is still to come, at worst, after the response to attempt k + 1. */
  function TailMs(latencyMs: nat, k: nat): nat
    decreases 4 - k
  {
    if k >= 4 then 0 else LongestWait(k + 1) + latencyMs + DELIVERY_TIMEOUT_MS + TailMs(latencyMs, k + 1)
  }

  /** One whole delivery: dispatched, answered, and the rest. */
  function WholeMs(latencyMs: nat): nat {
    latencyMs + DELIVERY_TIMEOUT_MS + TailMs(latencyMs, 0)
  }

  lemma WholeIsBound(latencyMs: nat)
    ensures WholeMs(latencyMs) == JobBoundMs(latencyMs)
    ensures forall k: nat ::
      LongestWait(k) + latencyMs + DELIVERY_TIMEOUT_MS + TailMs(latencyMs, k) <= WholeMs(latencyMs)
  {
    assert TailMs(latencyMs, 3) == 8_640_000 + latencyMs + DELIVERY_TIMEOUT_MS;
    assert TailMs(latencyMs, 2) == 2_160_000 + latencyMs + DELIVERY_TIMEOUT_MS + TailMs(latencyMs, 3);
    assert TailMs(latencyMs, 1) == 360_000 + latencyMs + DELIVERY_TIMEOUT_MS + TailMs(latencyMs, 2);
    assert TailMs(latencyMs, 0) == 72_000 + latencyMs + DELIVERY_TIMEOUT_MS + TailMs(latencyMs, 1);
  }

  /** n whole deliveries. */
  function Budget(latencyMs: nat, n: nat): nat {
    if n == 0 then 0 else WholeMs(latencyMs) + Budget(latencyMs, n - 1)
  }

  lemma {:induction false} BudgetIsProduct(latencyMs: nat, n: nat)
    ensures Budget(latencyMs, n) == n * JobBoundMs(latencyMs)
  {
    if n > 0 {
      hide WholeMs;
      BudgetIsProduct(latencyMs, n - 1);
      WholeIsBound(latencyMs);
      OneMore(n - 1, JobBoundMs(latencyMs));
    }
  }

  /** No deadline of the stage has been missed yet, and none lies further ahead than the retry schedule allows. */
  predicate OnTime(latencyMs: nat, clock: int, st: Stage) {
    match st
    case Done => true
    case Ready(n, _, ready, k) => n > 0 && k <= 4 && clock <= ready + latencyMs && ready <= clock + LongestWait(k)
    case Busy(n, _, since, k) => n > 0 && k <= 4 && since <= clock <= since + DELIVERY_TIMEOUT_MS
    case Retrying(n, _, due, k) => n > 0 && k <= 4 && clock <= due <= clock + LongestWait(k)
    case Closing(_, _) => true
  }

  /** However long everything takes from here, the session is done by `end`. */
  predicate DoneBy(latencyMs: nat, clock: int, st: Stage, end: int) {
    match st
    case Done => true
    case Ready(n, _, ready, k) => n > 0
      && ready + latencyMs + DELIVERY_TIMEOUT_MS + TailMs(latencyMs, k) + Budget(latencyMs, n - 1) <= end
    case Busy(n, _, since, k) => n > 0
      && since + DELIVERY_TIMEOUT_MS + TailMs(latencyMs, k) + Budget(latencyMs, n - 1) <= end
    case Retrying(n, _, due, k) => n > 0
      && due + latencyMs + DELIVERY_TIMEOUT_MS + TailMs(latencyMs, k) + Budget(latencyMs, n - 1) <= end
    case Closing(n, _) => clock + Budget(latencyMs, n) <= end
  }

  /** How a stage may change: the clock moves within the deadlines, or one thing happens while it stands. */
  predicate StageStep(latencyMs: nat, clock: int, st: Stage, clock': int, st': Stage) {
    clock <= clock' &&
    match (st, st')
    case (Done, Done) => true
    case (Ready(n, h, ready, k), Ready(n', h', ready', k')) => st' == st && clock' <= ready + latencyMs
    case (Busy(n, h, since, k), Busy(n', h', since', k')) => st' == st && clock' <= since + DELIVERY_TIMEOUT_MS
    case (Retrying(n, h, due, k), Retrying(n', h', due', k')) => st' == st && clock' == clock
    case (Closing(n, h), Closing(n', h')) => st' == st && clock' == clock
    case (Ready(n, h, ready, k), Busy(n', h', since', k')) => n' == n && since' == clock == clock' && k' == k
    case (Busy(n, h, since, k), Retrying(n', h', due', k')) => n' == n && k' == k + 1 <= 4
      && clock' == clock <= due' <= clock + LongestWait(k')
    case (Busy(n, h, since, k), Closing(n', h')) => n' == n - 1 && clock' == clock
    case (Retrying(n, h, due, k), Ready(n', h', ready', k')) => n' == n && ready' == due && k' == k && clock' == clock
    case (Closing(n, h), Ready(n', h', ready', k')) => n' == n > 0 && ready' == clock == clock' && k' == 0
    case (Closing(n, h), Done) => n == 0 && clock' == clock
    case _ => false
  }

  lemma StepStaysOnTime(latencyMs: nat, clock: int, st: Stage, clock': int, st': Stage)
    requires OnTime(latencyMs, clock, st) && StageStep(latencyMs, clock, st, clock', st')
    ensures OnTime(latencyMs, clock', st')
  {
  }

  lemma StepStaysDoneBy(latencyMs: nat, clock: int, st: Stage, clock': int, st': Stage, end: int)
    requires OnTime(latencyMs, clock, st) && DoneBy(latencyMs, clock, st, end)
      && StageStep(latencyMs, clock, st, clock', st')
    ensures DoneBy(latencyMs, clock', st', end)
  {
  }

  /** On time, a session with n deliveries waiting is done within n whole deliveries. */
  lemma OnTimeIsDoneBy(latencyMs: nat, clock: int, st: Stage)
    requires OnTime(latencyMs, clock, st)
    ensures st.Done? || DoneBy(latencyMs, clock, st, clock + Budget(latencyMs, st.waiting))
    ensures forall end :: DoneBy(latencyMs, clock, st, end) ==> st.Done? || clock <= end
  {
    hide TailMs, WholeMs;
    WholeIsBound(latencyMs);
    if st.Busy? {
      assert LongestWait(st.attempt) >= 0;
    }
  }
}
