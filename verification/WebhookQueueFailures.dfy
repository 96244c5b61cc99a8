/** What an exception or a death of the worker at the wrong command leaves behind for good. */
module WebhookQueueFailures {
  import opened Options
  import opened WebhookConstants
  import opened WebhookQueueState
  import opened WebhookQueueRuns
  import opened WebhookQueueOrder
  import opened WebhookQueueRequests
  import opened WebhookQueueLedger
  import opened WebhookQueueReplays

  // ---------------------------------------------------------------- dying after the dead letter was inserted

  /** A delivery whose attempt condemns it stays queued if and only if it has a dead letter already, left by a worker
      that died before its clean-up; then nothing but its row and the worker's books changes. */
  lemma CondemnedStaysIff(q: Queue, job: Job, result: DeliveryResult, now: int, rand: real)
    requires job.id in q.jobs && job.id in q.scheduled && Judge(job, result, now, rand).Condemn?
    ensures var q' := Processed(q, job, true, result, now, rand);
      && (job.id in q'.jobs && job.id in q'.scheduled <==> job.id in q.deadLetters)
      && (job.id in q.deadLetters ==>
            q'.jobs == q.jobs && q'.scheduled == q.scheduled && q'.ordering == q.ordering
              && q'.deadLetters == q.deadLetters)
  {
    hide Judge, LetterFor;
    RecordKeepsIntents(q, job, result, Judge(job, result, now, rand), now);
    hide Record;
  }

  // ---------------------------------------------------------------- off the schedule for good

  /** Off the schedule, with no worker on it, and nothing a sweep would rebuild: it has its hash or is closed. */
  predicate Retired(m: Machine, id: DeliveryId) {
    id in m.q.rows && id !in m.q.scheduled && id !in m.flights && id !in OrphanIds(m.q)
  }

  /** Row, place and requests of a delivery are as they were. */
  predicate Untouched(m: Machine, m': Machine, id: DeliveryId)
    requires id in m.q.rows && id in m'.q.rows
  {
    var entry := (m.q.rows[id].intent.sessionId, id);
    && m'.q.rows[id] == m.q.rows[id] && (entry in m'.q.ordering <==> entry in m.q.ordering)
    && Requests(m'.sent, id) == Requests(m.sent, id)
  }

  lemma RetiredByRecord(m: Machine, m': Machine, id: DeliveryId)
    requires id in m.q.rows && id in m'.q.rows && SameRecord(m, m', id)
    ensures Retired(m, id) ==> Retired(m', id) && Untouched(m, m', id)
    ensures Retired(m', id) ==> Retired(m, id)
  {
    hide Requests;
  }

  lemma RetiredThroughEnqueue(m: Machine, params: EnqueueParams, x: DeliveryId, at: EnqueueClock, id: DeliveryId)
    requires Retired(m, id) && x !in m.q.rows
    ensures id in Enqueue(m, params, x, at).q.rows && Retired(Enqueue(m, params, x, at), id)
    ensures Untouched(m, Enqueue(m, params, x, at), id)
  {
    hide SameRecord, Untouched, OrphanIds, Enqueue;
    EnqueueAddsRow(m, params, x, at);
    EnqueueElsewhere(m, params, x, at, id);
    RetiredByRecord(m, Enqueue(m, params, x, at), id);
  }

  lemma RetiredThroughRequeue(m: Machine, dead: DeliveryId, x: DeliveryId, at: EnqueueClock, now: int, id: DeliveryId)
    requires Retired(m, id) && x !in m.q.rows && dead in m.q.deadLetters
    ensures id in Requeue(m, dead, x, at, now).q.rows && Retired(Requeue(m, dead, x, at, now), id)
    ensures Untouched(m, Requeue(m, dead, x, at, now), id)
  {
    hide SameRecord, Requests, OrphanIds, Enqueue, Requeue;
    var params := RequeueParams(m.q.deadLetters[dead]);
    RetiredThroughEnqueue(m, params, x, at, id);
    RequeueElsewhere(m, dead, x, at, now, id);
    RetiredByRecord(Enqueue(m, params, x, at), Requeue(m, dead, x, at, now), id);
  }

  lemma RetiredThroughTick(maxConcurrency: int, m: Machine, now: int, picked: seq<DeliveryId>, m': Machine,
        id: DeliveryId)
    requires Retired(m, id) && Next(maxConcurrency, m, TickStep(now, picked), m')
    ensures Retired(m', id) && Untouched(m, m', id)
  {
    hide Requests, InOrder, EligibleIds;
    forall x | x in picked ensures x in m.q.scheduled {
      assert Eligible(m.q, now, x);
    }
  }

  lemma RetiredThroughRestart(m: Machine, now: int, m': Machine, id: DeliveryId)
    requires Retired(m, id) && Ranked(Intents(m.q.rows), m.q.ordering)
    requires IsRecovery(Crashed(m).q, now, m'.q) && m' == Restarted(m, m'.q)
    ensures Retired(m', id) && Untouched(m, m', id)
  {
    hide Requests, CountersRaised;
  }

  lemma RetiredThroughFailure(m: Machine, x: DeliveryId, id: DeliveryId)
    requires Retired(m, id)
    ensures Retired(Crashed(m), id) && Untouched(m, Crashed(m), id)
    ensures x in m.flights ==>
      var failed := Move(m, x, m.q, m.flights[x].job, Finishing); Retired(failed, id) && Untouched(m, failed, id)
  {
    hide Requests;
  }

  lemma RetiredThroughAdvance(m: Machine, x: DeliveryId, env: Env, id: DeliveryId)
    requires Retired(m, id) && Sound(m) && x in m.flights
    ensures id in Advance(m, x, env).q.rows && Retired(Advance(m, x, env), id)
    ensures Untouched(m, Advance(m, x, env), id)
  {
    hide Sound, SameRecord, Untouched, OrphanIds, Advance, OwnJob;
    OwnJobOf(m, x);
    AdvanceElsewhere(m, x, env, id);
    RetiredByRecord(m, Advance(m, x, env), id);
  }

  lemma RetiredStays(maxConcurrency: int, m: Machine, step: Step, m': Machine, id: DeliveryId)
    requires Sound(m) && Next(maxConcurrency, m, step, m') && Retired(m, id)
    ensures Retired(m', id) && Untouched(m, m', id)
  {
    hide Ranked, Numbered, FaithfulJobs, FaithfulFlights, Scheduled, ClosedInTurn, InFront, CleanedInTurn, Booked,
      SentFaithfully, IsTick, Advance, Enqueue, Requeue, IsRecovery, Restarted, Crashed, OrphanIds, Requests;
    match step
    case EnqueueStep(params, x, at) => RetiredThroughEnqueue(m, params, x, at, id);
    case RequeueStep(merchantId, dead, x, at, now) =>
      if MayRequeue(m.q, merchantId, dead) {
        RetiredThroughRequeue(m, dead, x, at, now, id);
      }
    case TickStep(now, picked) => RetiredThroughTick(maxConcurrency, m, now, picked, m', id);
    case AdvanceStep(x, env) => RetiredThroughAdvance(m, x, env, id);
    case FailStep(x) => RetiredThroughFailure(m, x, id);
    case CrashStep => RetiredThroughFailure(m, id, id);
    case RestartStep(now) => RetiredThroughRestart(m, now, m', id);
  }

  /** The step records the outcome of a request of this delivery. */
  predicate Records(m: Machine, step: Step, id: DeliveryId) {
    step.AdvanceStep? && step.id == id && id in m.flights && m.flights[id].phase.Recording?
  }

  lemma OwnRowChanges(m: Machine, id: DeliveryId, env: Env)
    requires OwnJob(m, id)
    ensures id in Advance(m, id, env).q.rows
    ensures Advance(m, id, env).q.rows[id] != m.q.rows[id] <==> m.flights[id].phase.Recording?
  {
    hide AfterRecord, LetterFor, RequestOf;
    if m.flights[id].phase.Recording? {
      var job, result := m.flights[id].job, m.flights[id].phase.result;
      RecordAddsEntry(m.q, job, result, Judge(job, result, env.now, env.rand), env.now);
    }
  }

  lemma RecordAddsEntry(q: Queue, job: Job, result: DeliveryResult, verdict: Verdict, now: int)
    requires job.id in q.rows
    ensures var q' := Record(q, job, result, verdict, now);
      job.id in q'.rows && |q'.rows[job.id].attemptLog| == |q.rows[job.id].attemptLog| + 1
  {
  }

  lemma RowChangesByAdvance(m: Machine, x: DeliveryId, env: Env, id: DeliveryId)
    requires Sound(m) && x in m.flights && id in m.q.rows
    ensures id in Advance(m, x, env).q.rows
    ensures Advance(m, x, env).q.rows[id] != m.q.rows[id] <==> Records(m, AdvanceStep(x, env), id)
  {
    hide Sound, SameRecord, Advance, OwnJob;
    OwnJobOf(m, x);
    if x == id {
      OwnRowChanges(m, id, env);
    } else {
      AdvanceElsewhere(m, x, env, id);
      SamePlace(m, Advance(m, x, env), id);
    }
  }

  lemma TickKeepsRows(maxConcurrency: int, m: Machine, now: int, picked: seq<DeliveryId>, m': Machine)
    requires Next(maxConcurrency, m, TickStep(now, picked), m')
    ensures m'.q.rows == m.q.rows
  {
    hide Eligible, EligibleIds, TakeOff, InOrder;
  }

  lemma RequeueKeepsRows(m: Machine, dead: DeliveryId, x: DeliveryId, at: EnqueueClock, now: int, id: DeliveryId)
    requires dead in m.q.deadLetters && x !in m.q.rows && id in m.q.rows
    ensures id in Requeue(m, dead, x, at, now).q.rows && Requeue(m, dead, x, at, now).q.rows[id] == m.q.rows[id]
  {
  }

  lemma EnqueueKeepsRow(m: Machine, params: EnqueueParams, x: DeliveryId, at: EnqueueClock, id: DeliveryId)
    requires x !in m.q.rows && id in m.q.rows
    ensures id in Enqueue(m, params, x, at).q.rows && Enqueue(m, params, x, at).q.rows[id] == m.q.rows[id]
  {
  }

  /** Status, counts and log of a delivery change exactly when the outcome of one of its requests is recorded: nothing
      guards a delivery that was recorded as delivered. */
  lemma RowChangesIff(maxConcurrency: int, m: Machine, step: Step, m': Machine, id: DeliveryId)
    requires Sound(m) && Next(maxConcurrency, m, step, m') && id in m.q.rows
    ensures id in m'.q.rows && (m'.q.rows[id] != m.q.rows[id] <==> Records(m, step, id))
  {
    hide Sound, IsTick, Advance, Enqueue, Requeue, JobsRebuilt, ScheduleRebuilt, OrderRebuilt, CountersRaised,
      OrphanIds;
    match step
    case EnqueueStep(params, x, at) => EnqueueKeepsRow(m, params, x, at, id);
    case RequeueStep(merchantId, dead, x, at, now) =>
      if MayRequeue(m.q, merchantId, dead) {
        RequeueKeepsRows(m, dead, x, at, now, id);
      }
    case TickStep(now, picked) => TickKeepsRows(maxConcurrency, m, now, picked, m');
    case AdvanceStep(x, env) => RowChangesByAdvance(m, x, env, id);
    case FailStep(x) =>
    case CrashStep =>
    case RestartStep(now) =>
  }

  lemma StepIsSound(maxConcurrency: int, ms: seq<Machine>, steps: seq<Step>, i: nat)
    requires IsRun(maxConcurrency, ms, steps) && i < |steps|
    ensures |ms| == |steps| + 1 && Sound(ms[i]) && Next(maxConcurrency, ms[i], steps[i], ms[i + 1])
  {
    hide Next, Sound;
    RunIsSound(maxConcurrency, ms, steps);
  }

  lemma RunLength(maxConcurrency: int, ms: seq<Machine>, steps: seq<Step>)
    requires IsRun(maxConcurrency, ms, steps)
    ensures |ms| == |steps| + 1
  {
    hide Next;
  }

  lemma UntouchedTwice(m: Machine, m1: Machine, m2: Machine, id: DeliveryId)
    requires id in m.q.rows && id in m1.q.rows && id in m2.q.rows && Untouched(m, m1, id) && Untouched(m1, m2, id)
    ensures Untouched(m, m2, id)
  {
    hide Requests;
  }

  lemma RetiredIsKnown(m: Machine, id: DeliveryId)
    requires Retired(m, id)
    ensures id in m.q.rows && Untouched(m, m, id)
  {
    hide OrphanIds, Requests;
  }

  /** A delivery off the schedule for good stays so in every run, whatever fails: its row is final, it keeps its place,
      and it is never requested again. */
  lemma {:induction false} RetiredForGood(maxConcurrency: int, ms: seq<Machine>, steps: seq<Step>, i: nat, j: nat,
        id: DeliveryId)
    requires IsRun(maxConcurrency, ms, steps) && i <= j <= |steps| && Retired(ms[i], id)
    ensures Retired(ms[j], id) && Untouched(ms[i], ms[j], id)
    decreases j - i
  {
    hide *;
    RunLength(maxConcurrency, ms, steps);
    RetiredIsKnown(ms[i], id);
    if i < j {
      StepIsSound(maxConcurrency, ms, steps, j - 1);
      RetiredForGood(maxConcurrency, ms, steps, i, j - 1, id);
      RetiredStays(maxConcurrency, ms[j - 1], steps[j - 1], ms[j], id);
      RetiredIsKnown(ms[j - 1], id);
      RetiredIsKnown(ms[j], id);
      UntouchedTwice(ms[i], ms[j - 1], ms[j], id);
    }
  }

  // ---------------------------------------------------------------- stuck sessions

  /** A delivery off the schedule for good that keeps its place in its session. */
  predicate Stuck(m: Machine, sid: SessionId, head: DeliveryId) {
    sid != NO_SESSION && (sid, head) in m.q.ordering && Retired(m, head)
  }

  lemma StuckPlace(m: Machine, sid: SessionId, head: DeliveryId)
    requires Sound(m) && (sid, head) in m.q.ordering
    ensures head in m.q.rows && m.q.rows[head].intent.sessionId == sid
    ensures m.q.rows[head].intent.sequence == m.q.ordering[(sid, head)]
  {
  }

  /** Nothing behind it can be picked, nor it itself. */
  lemma StuckShutsOut(m: Machine, now: int, sid: SessionId, head: DeliveryId, id: DeliveryId)
    requires Sound(m) && Stuck(m, sid, head) && id in m.q.rows && m.q.rows[id].intent.sessionId == sid
    requires m.q.rows[id].intent.sequence >= m.q.rows[head].intent.sequence
    ensures !Eligible(m.q, now, id)
  {
    StuckPlace(m, sid, head);
    if Eligible(m.q, now, id) && id != head {
      assert Fits(m.q.jobs[id], id, Intents(m.q.rows), m.stamps);
      BehindIsNoHead(m, sid, head, id);
    }
  }

  lemma BehindIsNoHead(m: Machine, sid: SessionId, head: DeliveryId, id: DeliveryId)
    requires Sound(m) && sid != NO_SESSION && (sid, head) in m.q.ordering && id != head
    requires id in m.q.rows && m.q.rows[id].intent.sessionId == sid
    requires head in m.q.rows && m.q.rows[head].intent.sessionId == sid
      && m.q.rows[id].intent.sequence >= m.q.rows[head].intent.sequence
    ensures !IsHead(m.q.ordering, sid, id)
  {
    DistinctSequences(m, sid, head, id);
    if IsHead(m.q.ordering, sid, id) {
      StuckPlace(m, sid, head);
      StuckPlace(m, sid, id);
      hide Sound;
      HeadIsLowest(m.q.ordering, sid, id, head);
    }
  }

  lemma DistinctSequences(m: Machine, sid: SessionId, a: DeliveryId, b: DeliveryId)
    requires Sound(m) && a in m.q.rows && b in m.q.rows && a != b && sid != NO_SESSION
    requires m.q.rows[a].intent.sessionId == sid && m.q.rows[b].intent.sessionId == sid
    ensures m.q.rows[a].intent.sequence != m.q.rows[b].intent.sequence
  {
    var intents := Intents(m.q.rows);
    assert a in intents && b in intents && intents[a].sequence != intents[b].sequence;
  }

  /** Requests are only added, and while a delivery is stuck only for sessions other than its own or for what comes
      before it. */
  lemma StuckSilences(maxConcurrency: int, m: Machine, step: Step, m': Machine, sid: SessionId, head: DeliveryId,
        k: nat)
    requires Sound(m) && Next(maxConcurrency, m, step, m') && Stuck(m, sid, head)
    ensures |m.sent| <= |m'.sent|
    ensures |m.sent| <= k < |m'.sent| && m'.sent[k].intent.sessionId == sid ==>
      m'.sent[k].intent.sequence < m.q.rows[head].intent.sequence
  {
    hide Sound, IsTick, Advance, IsRecovery, OrphanIds;
    if step.AdvanceStep? {
      AdvanceSends(m, step.id, step.env);
      if m.flights[step.id].phase.Calling? {
        CallerIsBefore(m, step.id, sid, head);
      }
    }
  }

  lemma CallerIsBefore(m: Machine, id: DeliveryId, sid: SessionId, head: DeliveryId)
    requires Sound(m) && Stuck(m, sid, head) && id in m.flights && m.flights[id].phase.Calling?
    ensures m.flights[id].job.intent.sessionId == sid ==>
      m.flights[id].job.intent.sequence < m.q.rows[head].intent.sequence
  {
    hide OrphanIds, Sound;
    FrontOf(m, id);
    StuckPlace(m, sid, head);
    if m.flights[id].job.intent.sessionId == sid
      && m.flights[id].job.intent.sequence >= m.q.rows[head].intent.sequence {
      BehindIsNoHead(m, sid, head, id);
    }
  }

  /** In every run a stuck delivery stays stuck, through enqueues, passes, failures, crashes and restarts, whatever
      their sweeps revive. */
  lemma StuckForGood(maxConcurrency: int, ms: seq<Machine>, steps: seq<Step>, i: nat, j: nat, sid: SessionId,
        head: DeliveryId)
    requires IsRun(maxConcurrency, ms, steps) && i <= j <= |steps| && Stuck(ms[i], sid, head)
    ensures Stuck(ms[j], sid, head) && ms[j].q.rows[head] == ms[i].q.rows[head]
    ensures Requests(ms[j].sent, head) == Requests(ms[i].sent, head)
  {
    hide IsRun, Retired, Requests, Sound;
    RunLength(maxConcurrency, ms, steps);
    RetiredForGood(maxConcurrency, ms, steps, i, j, head);
    RetiredIsKnown(ms[i], head);
    RetiredIsKnown(ms[j], head);
    SoundAt(maxConcurrency, ms, steps, i);
    StuckPlace(ms[i], sid, head);
  }

  lemma SoundAt(maxConcurrency: int, ms: seq<Machine>, steps: seq<Step>, i: nat)
    requires IsRun(maxConcurrency, ms, steps) && i < |ms|
    ensures Sound(ms[i])
  {
    hide IsRun, Sound;
    RunIsSound(maxConcurrency, ms, steps);
  }

  /** And from then on nothing of its session is requested but what comes before it: neither the delivery itself nor any
      later one, enqueued already or ever. */
  lemma {:induction false} StuckSilencesSession(maxConcurrency: int, ms: seq<Machine>, steps: seq<Step>, i: nat, j: nat,
        sid: SessionId, head: DeliveryId, k: nat)
    requires IsRun(maxConcurrency, ms, steps) && i <= j <= |steps| && Stuck(ms[i], sid, head)
    requires |ms[i].sent| <= k < |ms[j].sent| && ms[j].sent[k].intent.sessionId == sid
    ensures head in ms[i].q.rows && ms[j].sent[k].intent.sequence < ms[i].q.rows[head].intent.sequence
    decreases j - i
  {
    hide *;
    RunLength(maxConcurrency, ms, steps);
    StuckIsKnown(ms[i], sid, head);
    if i < j {
      StepIsSound(maxConcurrency, ms, steps, j - 1);
      StuckForGood(maxConcurrency, ms, steps, i, j - 1, sid, head);
      StuckSilences(maxConcurrency, ms[j - 1], steps[j - 1], ms[j], sid, head, k);
      SentIsKept(maxConcurrency, ms[j - 1], steps[j - 1], ms[j]);
      if k < |ms[j - 1].sent| {
        StuckSilencesSession(maxConcurrency, ms, steps, i, j - 1, sid, head, k);
      }
    }
  }

  lemma StuckIsKnown(m: Machine, sid: SessionId, head: DeliveryId)
    requires Stuck(m, sid, head)
    ensures head in m.q.rows
  {
  }

  lemma SentIsKept(maxConcurrency: int, m: Machine, step: Step, m': Machine)
    requires Next(maxConcurrency, m, step, m')
    ensures m.sent <= m'.sent
  {
    hide IsTick, Advance, IsRecovery;
    if step.AdvanceStep? {
      AdvanceSends(m, step.id, step.env);
    }
  }

  // ---------------------------------------------------------------- how a delivery gets stuck

  /** The worker has taken the delivery off the schedule, and not, or not successfully, out of its session. */
  predicate HalfCleaned(m: Machine, sid: SessionId, id: DeliveryId) {
    && (sid, id) in m.q.ordering && id in m.flights && id !in m.q.scheduled
    && (m.flights[id].phase.Unordering? || m.flights[id].phase.Finishing?)
  }

  /** The step ends the call: the worker dies, or the call, having thrown, runs into its `finally`. */
  predicate EndsCall(m: Machine, step: Step, id: DeliveryId) {
    step.CrashStep? || step.RestartStep?
    || (step.AdvanceStep? && step.id == id && id in m.flights && m.flights[id].phase.Finishing?)
  }

  lemma StuckByRecord(m: Machine, m': Machine, sid: SessionId, head: DeliveryId)
    requires Sound(m) && Sound(m') && head in m.q.rows && head in m'.q.rows && SameRecord(m, m', head)
    ensures Stuck(m', sid, head) ==> Stuck(m, sid, head)
  {
    hide SameRecord, Sound, Retired;
    if Stuck(m', sid, head) {
      StuckPlace(m', sid, head);
      RetiredByRecord(m, m', head);
      SamePlace(m, m', head);
    }
  }

  lemma SamePlace(m: Machine, m': Machine, id: DeliveryId)
    requires id in m.q.rows && id in m'.q.rows && SameRecord(m, m', id)
    ensures m.q.rows[id] == m'.q.rows[id] && (id in m.flights <==> id in m'.flights)
    ensures var entry := (m.q.rows[id].intent.sessionId, id); entry in m.q.ordering <==> entry in m'.q.ordering
  {
    hide Requests;
  }

  lemma InFlightIsNotStuck(m: Machine, sid: SessionId, head: DeliveryId)
    ensures head in m.flights || head in m.q.scheduled ==> !Stuck(m, sid, head)
  {
  }

  lemma NoneStuckByEnqueue(m: Machine, params: EnqueueParams, id: DeliveryId, at: EnqueueClock, sid: SessionId,
        head: DeliveryId)
    requires Sound(m) && id !in m.q.rows && Stuck(Enqueue(m, params, id, at), sid, head)
    ensures Stuck(m, sid, head)
  {
    hide Sound, SameRecord, Enqueue, Stuck;
    EnqueueKeepsSound(m, params, id, at);
    EnqueueAddsRow(m, params, id, at);
    StuckIsKnown(Enqueue(m, params, id, at), sid, head);
    if head == id {
      NewIsScheduled(m, params, id, at);
      InFlightIsNotStuck(Enqueue(m, params, id, at), sid, head);
    } else {
      EnqueueElsewhere(m, params, id, at, head);
      StuckByRecord(m, Enqueue(m, params, id, at), sid, head);
    }
  }

  lemma NewIsScheduled(m: Machine, params: EnqueueParams, id: DeliveryId, at: EnqueueClock)
    ensures id in Enqueue(m, params, id, at).q.scheduled
  {
  }

  lemma NoneStuckByRequeue(m: Machine, dead: DeliveryId, id: DeliveryId, at: EnqueueClock, now: int, sid: SessionId,
        head: DeliveryId)
    requires Sound(m) && id !in m.q.rows && dead in m.q.deadLetters && Stuck(Requeue(m, dead, id, at, now), sid, head)
    ensures Stuck(m, sid, head)
  {
    hide Sound, SameRecord, Enqueue, Requeue, Stuck;
    var params := RequeueParams(m.q.deadLetters[dead]);
    StuckIsKnown(Requeue(m, dead, id, at, now), sid, head);
    RequeueElsewhere(m, dead, id, at, now, head);
    EnqueueKeepsSound(m, params, id, at);
    RequeueKeepsSound(m, dead, id, at, now);
    StuckByRecord(Enqueue(m, params, id, at), Requeue(m, dead, id, at, now), sid, head);
    NoneStuckByEnqueue(m, params, id, at, sid, head);
  }

  lemma NoneStuckByTick(maxConcurrency: int, m: Machine, now: int, picked: seq<DeliveryId>, m': Machine, sid: SessionId,
        head: DeliveryId)
    requires AllSane(m) && Next(maxConcurrency, m, TickStep(now, picked), m') && Stuck(m', sid, head)
    ensures Stuck(m, sid, head)
  {
    hide Sane, SameRecord, Stuck, TakeOff, IsTick, Sound;
    TickDispatches(maxConcurrency, m, now, picked, m');
    TickKeepsSound(maxConcurrency, m, now, picked, m');
    StuckIsKnown(m', sid, head);
    if m' != m {
      if head in picked {
        TakenOffFlies(m, picked, head);
        InFlightIsNotStuck(m', sid, head);
      } else {
        UnpickedIsSame(m, picked, m', head);
        StuckByRecord(m, m', sid, head);
      }
    }
  }

  lemma TakenOffFlies(m: Machine, picked: seq<DeliveryId>, id: DeliveryId)
    requires id in picked && forall x :: x in picked ==> x in m.q.jobs
    ensures id in TakeOff(m, picked)
  {
  }

  lemma NoneStuckByAdvance(m: Machine, id: DeliveryId, env: Env, sid: SessionId, head: DeliveryId)
    requires Sound(m) && id in m.flights && Stuck(Advance(m, id, env), sid, head)
    ensures Stuck(m, sid, head) || (head == id && m.flights[id].phase.Finishing?)
  {
    hide Sound, SameRecord, Stuck, Advance, OwnJob;
    OwnJobOf(m, id);
    AdvanceKeepsSound(m, id, env);
    AdvanceKeepsRows(m, id, env);
    StuckIsKnown(Advance(m, id, env), sid, head);
    if head != id {
      AdvanceElsewhere(m, id, env, head);
      StuckByRecord(m, Advance(m, id, env), sid, head);
    } else if !m.flights[id].phase.Finishing? {
      StaysInFlight(m, id, env);
      InFlightIsNotStuck(Advance(m, id, env), sid, head);
    }
  }

  lemma StaysInFlight(m: Machine, id: DeliveryId, env: Env)
    requires id in m.flights && !m.flights[id].phase.Finishing?
    ensures id in Advance(m, id, env).flights
  {
  }

  lemma EndOfCall(m: Machine, id: DeliveryId, env: Env, sid: SessionId)
    requires AllSane(m) && sid != NO_SESSION && id in m.flights && m.flights[id].phase.Finishing?
    ensures Stuck(Advance(m, id, env), sid, id) <==> HalfCleaned(m, sid, id)
  {
    hide Requests, Budgeted;
    OwnJobOf(m, id);
    assert Sane(m, id);
    if (sid, id) in m.q.ordering {
      StuckPlace(m, sid, id);
    }
    hide Sound;
  }

  lemma EndOfWorker(m: Machine, sid: SessionId, id: DeliveryId)
    requires AllSane(m) && sid != NO_SESSION && !Stuck(m, sid, id)
    ensures Stuck(Crashed(m), sid, id) <==> HalfCleaned(m, sid, id)
  {
    hide Requests, Budgeted;
    if (sid, id) in m.q.ordering {
      StuckPlace(m, sid, id);
      assert Sane(m, id);
    }
    hide Sound;
  }

  lemma RestartIsCrash(m: Machine, now: int, m': Machine, sid: SessionId, id: DeliveryId)
    requires Sound(m) && IsRecovery(Crashed(m).q, now, m'.q) && m' == Restarted(m, m'.q) && sid != NO_SESSION
    ensures Stuck(m', sid, id) <==> Stuck(Crashed(m), sid, id)
  {
    hide Requests, CountersRaised;
    if (sid, id) in m.q.ordering {
      StuckPlace(m, sid, id);
    }
    hide Sound;
  }

  /** In every run a delivery gets stuck exactly when its call ends, by an exception or a death of the worker, after
      taking it off the schedule and before taking it out of its session. */
  lemma GetsStuckIff(maxConcurrency: int, ms: seq<Machine>, steps: seq<Step>, i: nat, sid: SessionId, head: DeliveryId)
    requires IsRun(maxConcurrency, ms, steps) && i < |steps| && sid != NO_SESSION && !Stuck(ms[i], sid, head)
    ensures Stuck(ms[i + 1], sid, head) <==> HalfCleaned(ms[i], sid, head) && EndsCall(ms[i], steps[i], head)
  {
    hide *;
    StepIsSane(maxConcurrency, ms, steps, i);
    StepSticks(maxConcurrency, ms[i], steps[i], ms[i + 1], sid, head);
  }

  lemma StepSticks(maxConcurrency: int, m: Machine, step: Step, m': Machine, sid: SessionId, head: DeliveryId)
    requires AllSane(m) && Next(maxConcurrency, m, step, m') && sid != NO_SESSION && !Stuck(m, sid, head)
    ensures Stuck(m', sid, head) <==> HalfCleaned(m, sid, head) && EndsCall(m, step, head)
  {
    hide Sound, Sane, Stuck, HalfCleaned, IsTick, Advance, Enqueue, Requeue, IsRecovery, Restarted, Crashed;
    match step
    case EnqueueStep(params, x, at) =>
      if Stuck(m', sid, head) {
        NoneStuckByEnqueue(m, params, x, at, sid, head);
      }
    case RequeueStep(merchantId, dead, x, at, now) =>
      if MayRequeue(m.q, merchantId, dead) && Stuck(m', sid, head) {
        NoneStuckByRequeue(m, dead, x, at, now, sid, head);
      }
    case TickStep(now, picked) =>
      if Stuck(m', sid, head) {
        NoneStuckByTick(maxConcurrency, m, now, picked, m', sid, head);
      }
    case AdvanceStep(x, env) =>
      if x == head && m.flights[x].phase.Finishing? {
        EndOfCall(m, x, env, sid);
      } else if Stuck(m', sid, head) {
        NoneStuckByAdvance(m, x, env, sid, head);
      }
    case FailStep(x) => FailSticksNothing(m, x, sid, head);
    case CrashStep => EndOfWorker(m, sid, head);
    case RestartStep(now) =>
      EndOfWorker(m, sid, head);
      RestartIsCrash(m, now, m', sid, head);
  }

  lemma FailSticksNothing(m: Machine, x: DeliveryId, sid: SessionId, head: DeliveryId)
    requires x in m.flights && !Stuck(m, sid, head)
    ensures !Stuck(Move(m, x, m.q, m.flights[x].job, Finishing), sid, head)
  {
  }

  // ---------------------------------------------------------------- the only ways out

  /** What Redis may lose of the jobs: their hashes expire one by one. */
  function WithoutJobs(m: Machine, gone: set<DeliveryId>): Machine {
    m.(q := m.q.(jobs := m.q.jobs - gone))
  }

  /** A restart puts a stuck delivery back on the schedule if and only if its own hash has been lost and its row is
      still open: after a clean-up, only one dropped for want of a target. Nothing else a sweep revives helps it. */
  lemma HashLossFreesIff(m: Machine, gone: set<DeliveryId>, now: int, m': Machine, sid: SessionId, head: DeliveryId)
    requires Sound(m) && Stuck(m, sid, head)
    requires var lost := WithoutJobs(m, gone); IsRecovery(Crashed(lost).q, now, m'.q) && m' == Restarted(lost, m'.q)
    ensures head in m.q.rows
    ensures head in m'.q.scheduled <==> head in gone && Open(m.q.rows[head].status)
    ensures Stuck(m', sid, head) <==> !(head in gone && Open(m.q.rows[head].status))
  {
    hide Requests, CountersRaised;
    StuckPlace(m, sid, head);
    hide Sound;
  }
}
