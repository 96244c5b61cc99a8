/** What the event of a delivery and the status of a response decide. */
module WebhookQueuePriority {
  import opened Options
  import opened WebhookConstants
  import opened WebhookQueueState
  import opened WebhookQueueRuns
  import opened WebhookQueueOrder

  // ---------------------------------------------------------------- events

  ghost predicate Prioritized(intents: map<DeliveryId, Intent>) {
    forall id :: id in intents ==> intents[id].priority == PriorityFor(intents[id].event)
  }

  lemma EnqueuedIsPrioritized(q: Queue, params: EnqueueParams, id: DeliveryId, at: EnqueueClock)
    requires Prioritized(Intents(q.rows))
    ensures Prioritized(Intents(Enqueued(q, params, id, at).rows))
  {
    hide PriorityFor;
    IntentsAfterInsert(q.rows, id, NewRow(NewIntent(params, NextSequence(q, SessionOf(params))), at));
  }

  lemma OnlyRecordingTouchesRows(m: Machine, id: DeliveryId, env: Env)
    requires id in m.flights && !m.flights[id].phase.Recording?
    ensures Advance(m, id, env).q.rows == m.q.rows
  {
    RowsUntouched(m.q, m.flights[id].job);
    hide Release, Unschedule, Unorder, DeleteJob, Schedule, Record, Judge, LetterFor;
  }

  lemma RowsUntouched(q: Queue, job: Job)
    ensures Unschedule(q, job.id).rows == Unorder(q, job).rows == DeleteJob(q, job.id).rows == q.rows
    ensures Schedule(q, job.id, job.availableAt).rows == Release(q, job).rows == q.rows
  {
  }

  lemma AdvanceKeepsIntents(m: Machine, id: DeliveryId, env: Env)
    requires id in m.flights
    ensures Intents(Advance(m, id, env).q.rows) == Intents(m.q.rows)
  {
    if m.flights[id].phase.Recording? {
      var job, result := m.flights[id].job, m.flights[id].phase.result;
      var verdict := Judge(job, result, env.now, env.rand);
      assert Advance(m, id, env).q == Record(m.q, job, result, verdict, env.now);
      hide *;
      RecordKeepsIntents(m.q, job, result, verdict, env.now);
    } else {
      hide *;
      OnlyRecordingTouchesRows(m, id, env);
    }
  }

  lemma NextKeepsPriorities(maxConcurrency: int, m: Machine, step: Step, m': Machine)
    requires Next(maxConcurrency, m, step, m') && Prioritized(Intents(m.q.rows))
    ensures Prioritized(Intents(m'.q.rows))
  {
    hide Prioritized, Intents, Advance, EligibleIds, Eligible, Enqueued;
    match step
    case EnqueueStep(params, id, at) => EnqueuedIsPrioritized(m.q, params, id, at);
    case RequeueStep(merchantId, dead, id, at, now) =>
      if MayRequeue(m.q, merchantId, dead) {
        EnqueuedIsPrioritized(m.q, RequeueParams(m.q.deadLetters[dead]), id, at);
      }
    case TickStep(now, picked) =>
    case AdvanceStep(id, env) => AdvanceKeepsIntents(m, id, env);
    case FailStep(id) =>
    case CrashStep =>
    case RestartStep(now) =>
  }

  lemma {:induction false} RunKeepsPriorities(maxConcurrency: int, ms: seq<Machine>, steps: seq<Step>)
    requires IsRun(maxConcurrency, ms, steps)
    ensures forall i :: 0 <= i < |ms| ==> Prioritized(Intents(ms[i].q.rows))
  {
    if steps != [] {
      hide Next, Prioritized;
      var n := |steps| - 1;
      RunKeepsPriorities(maxConcurrency, ms[..n + 1], steps[..n]);
      assert Prioritized(Intents(ms[..n + 1][n].q.rows));
      NextKeepsPriorities(maxConcurrency, ms[n], steps[n], ms[n + 1]);
      assert forall i :: 0 <= i <= n ==> ms[i] == ms[..n + 1][i];
    }
  }

  lemma JobIsPrioritized(m: Machine, id: DeliveryId)
    requires Sound(m) && Prioritized(Intents(m.q.rows)) && id in m.q.jobs
    ensures m.q.jobs[id].intent.priority == PriorityFor(m.q.jobs[id].intent.event)
  {
    assert Fits(m.q.jobs[id], id, Intents(m.q.rows), m.stamps);
  }

  /** What each event is worth. */
  lemma PrioritiesOfEvents(event: string)
    ensures PriorityFor(event) == 1 <==> event == "payment.confirmed"
    ensures PriorityFor(event) == 2 <==> event == "session.expired" || event == "payment.failed"
    ensures PriorityFor(event) == 3 <==>
      event != "payment.confirmed" && event != "session.expired" && event != "payment.failed"
  {
  }

  lemma OnlyConfirmationsAreUrgent(event: string)
    ensures PriorityFor(event) <= 1 <==> event == "payment.confirmed"
  {
  }

  /** In every pass of every run no eligible delivery is left behind for one whose event has a lower priority; in
      particular a waiting payment confirmation is passed over only for other payment confirmations. */
  lemma ConfirmationsGoFirst(maxConcurrency: int, ms: seq<Machine>, steps: seq<Step>, i: nat, now: int,
        picked: seq<DeliveryId>, a: DeliveryId, b: DeliveryId)
    requires IsRun(maxConcurrency, ms, steps) && i < |steps| && steps[i] == TickStep(now, picked)
    requires a in picked && b !in picked && Eligible(ms[i].q, now, b)
    ensures a in ms[i].q.jobs && b in ms[i].q.jobs
    ensures PriorityFor(ms[i].q.jobs[a].intent.event) <= PriorityFor(ms[i].q.jobs[b].intent.event)
    ensures ms[i].q.jobs[b].intent.event == "payment.confirmed" ==> ms[i].q.jobs[a].intent.event == "payment.confirmed"
  {
    RunIsSound(maxConcurrency, ms, steps);
    RunKeepsPriorities(maxConcurrency, ms, steps);
    assert Next(maxConcurrency, ms[i], steps[i], ms[i + 1]);
    var m := ms[i];
    hide Sound, Prioritized, Next, PriorityFor;
    PickedBefore(maxConcurrency, m, now, picked, ms[i + 1], a, b);
    JobIsPrioritized(m, a);
    JobIsPrioritized(m, b);
    OnlyConfirmationsAreUrgent(m.q.jobs[a].intent.event);
    OnlyConfirmationsAreUrgent(m.q.jobs[b].intent.event);
  }

  lemma PickedBefore(maxConcurrency: int, m: Machine, now: int, picked: seq<DeliveryId>, m': Machine, a: DeliveryId,
        b: DeliveryId)
    requires Next(maxConcurrency, m, TickStep(now, picked), m') && a in picked && b !in picked && Eligible(m.q, now, b)
    ensures a in m.q.jobs && b in m.q.jobs && m.q.jobs[a].intent.priority <= m.q.jobs[b].intent.priority
  {
    assert b in EligibleIds(m.q, now);
    hide Eligible, Dispatch;
  }

  /** In every pass of every run: whatever is dispatched goes before every eligible delivery left behind, by priority,
      then by sequence, then by due time. */
  lemma DispatchedGoBefore(maxConcurrency: int, ms: seq<Machine>, steps: seq<Step>, i: nat, now: int,
        picked: seq<DeliveryId>, left: DeliveryId, k: nat)
    requires IsRun(maxConcurrency, ms, steps) && i < |steps| && steps[i] == TickStep(now, picked)
    requires k < |picked| && left !in picked && Eligible(ms[i].q, now, left)
    ensures picked[k] in ms[i].q.jobs && left in ms[i].q.jobs
    ensures var a, b := ms[i].q.jobs[picked[k]], ms[i].q.jobs[left];
      || a.intent.priority < b.intent.priority
      || (a.intent.priority == b.intent.priority && a.intent.sequence < b.intent.sequence)
      || (a.intent.priority == b.intent.priority && a.intent.sequence == b.intent.sequence
          && a.availableAt <= b.availableAt)
  {
    assert Next(maxConcurrency, ms[i], steps[i], ms[i + 1]);
    assert left in EligibleIds(ms[i].q, now) && picked[k] in picked;
    hide Eligible, Dispatch, Compare;
    CompareIsLexicographic(ms[i].q.jobs[picked[k]], ms[i].q.jobs[left]);
  }

  /** And what is dispatched together is dispatched in that order. */
  lemma DispatchedInOrder(maxConcurrency: int, ms: seq<Machine>, steps: seq<Step>, i: nat, now: int,
        picked: seq<DeliveryId>, k: nat, l: nat)
    requires IsRun(maxConcurrency, ms, steps) && i < |steps| && steps[i] == TickStep(now, picked) && k < l < |picked|
    ensures picked[k] in ms[i].q.jobs && picked[l] in ms[i].q.jobs
    ensures var a, b := ms[i].q.jobs[picked[k]], ms[i].q.jobs[picked[l]];
      || a.intent.priority < b.intent.priority
      || (a.intent.priority == b.intent.priority && a.intent.sequence < b.intent.sequence)
      || (a.intent.priority == b.intent.priority && a.intent.sequence == b.intent.sequence
          && a.availableAt <= b.availableAt)
  {
    assert Next(maxConcurrency, ms[i], steps[i], ms[i + 1]);
    assert picked[k] in picked && picked[l] in picked;
    hide Eligible, Dispatch, EligibleIds, Compare;
    CompareIsLexicographic(ms[i].q.jobs[picked[k]], ms[i].q.jobs[picked[l]]);
  }

  /** A pass with room dispatches exactly as many eligible jobs as fit, books them and their sessions, and takes off the
      schedule exactly the due entries whose hash is gone. */
  lemma PassDoes(q: Queue, maxConcurrency: int, now: int, picked: seq<DeliveryId>, q': Queue)
    requires IsTick(q, maxConcurrency, now, picked, q') && maxConcurrency > q.active
    ensures var room, ready := maxConcurrency - q.active, set id | id in q.scheduled.Keys && Eligible(q, now, id);
      |picked| == if room < |ready| then room else |ready|
    ensures q'.active == q.active + |picked| && q'.jobs == q.jobs && q'.ordering == q.ordering && q'.rows == q.rows
    ensures forall id :: id in q'.processing <==> id in q.processing || id in picked
    ensures forall sid :: sid in q'.inflightSessions <==>
      sid in q.inflightSessions
      || (sid != 0 && exists id :: id in picked && id in q.jobs && q.jobs[id].intent.sessionId == sid)
    ensures forall id :: id in q'.scheduled <==>
      id in q.scheduled && !(q.scheduled[id] <= now && id !in q.processing && id !in q.jobs)
    ensures forall id :: id in q'.scheduled ==> q'.scheduled[id] == q.scheduled[id]
  {
    assert EligibleIds(q, now) == set id | id in q.scheduled.Keys && Eligible(q, now, id);
    hide Eligible, InOrder, Compare;
  }

  // ---------------------------------------------------------------- statuses

  /** What a response leads to: delivery on 2xx, the dead letters at once on 4xx other than 408 and 429, and otherwise a
      later retry until the fifth attempt. */
  lemma VerdictByStatus(job: Job, status: int, error: Option<string>, now: int, rand: real)
    requires IsRandom(rand)
    ensures var v := Judge(job, DeliveryResult(ClassifyStatus(status), Some(status), error), now, rand);
      var broken := 400 <= status < 500 && status != 408 && status != 429;
      var delivered := 200 <= status < 300;
      && (v.Deliver? <==> delivered)
      && (v == Condemn(Http4xx(Some(status))) <==> broken)
      && (v == Condemn(MaxAttempts) <==> !broken && !delivered && job.attempt >= 4)
      && (v.Again? <==> !broken && !delivered && job.attempt < 4)
      && (v.Again? ==> v.availableAt > now)
  {
    hide BackoffDelayMs;
    DelayWithinRatio(job.attempt + 1, rand);
  }
}
