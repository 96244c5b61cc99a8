/** What a delivery carries through every run: the content it was enqueued with, its number in its session, and what its
    row tells about its attempts. */
module WebhookQueueContents {
  import opened Options
  import opened WebhookConstants
  import opened WebhookQueueState
  import opened WebhookQueueRuns
  import opened WebhookQueueOrder
  import opened WebhookQueueLedger
  import opened WebhookQueueRequests
  import opened WebhookQueuePriority
  import opened WebhookQueueReplays
  import opened WebhookQueueTiming
  import opened WebhookQueueFailures

  // ---------------------------------------------------------------- one enqueue

  /** Everything an enqueue writes. */
  lemma EnqueueWrites(q: Queue, params: EnqueueParams, id: DeliveryId, at: EnqueueClock)
    ensures var q' := Enqueued(q, params, id, at);
      var sid := match params.sessionId case None => 0 case Some(s) => s;
      && id in q'.rows && id in q'.jobs && id in q'.scheduled
      && var row, job := q'.rows[id], q'.jobs[id];
        && row.intent.merchantId == params.merchantId && row.intent.sessionId == sid
        && row.intent.event == params.event && row.intent.data == params.body
        && row.intent.sequence == (if sid == 0 then 0 else if sid in q.seqs then q.seqs[sid] + 1 else 1)
        && row.createdAt == at.createdAt && row.status.Pending? && row.attempts == 0 && row.attemptLog == []
        && row.responseStatus.None? && row.deliveredAt.None? && row.nextRetryAt.None?
        && job.id == id && job.intent == row.intent && job.timestamp == at.timestamp && job.attempt == 0
        && job.availableAt == at.now && q'.scheduled[id] == at.now
        && (sid != 0 ==> sid in q'.seqs && q'.seqs[sid] == row.intent.sequence)
        && (sid != 0 ==> (sid, id) in q'.ordering && q'.ordering[(sid, id)] == row.intent.sequence)
  {
    hide PriorityFor;
  }

  // ---------------------------------------------------------------- content

  lemma RecordKeepsOrigin(q: Queue, job: Job, result: DeliveryResult, verdict: Verdict, now: int, id: DeliveryId)
    requires id in q.rows
    ensures var q' := Record(q, job, result, verdict, now);
      id in q'.rows && q'.rows[id].intent == q.rows[id].intent && q'.rows[id].createdAt == q.rows[id].createdAt
  {
  }

  lemma AdvanceKeepsOrigin(m: Machine, x: DeliveryId, env: Env, id: DeliveryId)
    requires x in m.flights && id in m.q.rows
    ensures var m' := Advance(m, x, env);
      id in m'.q.rows && m'.q.rows[id].intent == m.q.rows[id].intent
        && m'.q.rows[id].createdAt == m.q.rows[id].createdAt
  {
    hide Record, Judge, AfterRecord, RequestOf, LetterFor, Release, Unorder;
    if m.flights[x].phase.Recording? {
      var job, result := m.flights[x].job, m.flights[x].phase.result;
      RecordKeepsOrigin(m.q, job, result, Judge(job, result, env.now, env.rand), env.now, id);
    } else {
      OnlyRecordingTouchesRows(m, x, env);
    }
  }

  /** The content and the creation time of a row never change. */
  lemma OriginIsFinal(maxConcurrency: int, m: Machine, step: Step, m': Machine, id: DeliveryId)
    requires Next(maxConcurrency, m, step, m') && id in m.q.rows
    ensures id in m'.q.rows && m'.q.rows[id].intent == m.q.rows[id].intent
    ensures m'.q.rows[id].createdAt == m.q.rows[id].createdAt
  {
    hide IsTick, Advance, Enqueue, Requeue, JobsRebuilt, ScheduleRebuilt, OrderRebuilt, CountersRaised, OrphanIds;
    match step
    case EnqueueStep(params, x, at) => EnqueueKeepsRow(m, params, x, at, id);
    case RequeueStep(merchantId, dead, x, at, now) =>
      if MayRequeue(m.q, merchantId, dead) {
        RequeueKeepsRows(m, dead, x, at, now, id);
      }
    case TickStep(now, picked) => TickKeepsRows(maxConcurrency, m, now, picked, m');
    case AdvanceStep(x, env) => AdvanceKeepsOrigin(m, x, env, id);
    case FailStep(x) =>
    case CrashStep =>
    case RestartStep(now) =>
  }

  lemma {:induction false} OriginStays(maxConcurrency: int, ms: seq<Machine>, steps: seq<Step>, i: nat, j: nat,
        id: DeliveryId)
    requires IsRun(maxConcurrency, ms, steps) && i <= j <= |steps| < |ms| && id in ms[i].q.rows
    ensures id in ms[j].q.rows && ms[j].q.rows[id].intent == ms[i].q.rows[id].intent
    ensures ms[j].q.rows[id].createdAt == ms[i].q.rows[id].createdAt
    decreases j - i
  {
    hide *;
    if i < j {
      StepIsSound(maxConcurrency, ms, steps, j - 1);
      OriginStays(maxConcurrency, ms, steps, i, j - 1, id);
      OriginIsFinal(maxConcurrency, ms[j - 1], steps[j - 1], ms[j], id);
    }
  }

  /** Dead letters carry the content of their deliveries. */
  predicate LetterFaithful(q: Queue, id: DeliveryId)
    requires id in q.deadLetters
  {
    id in q.rows &&
    var letter, intent := q.deadLetters[id], q.rows[id].intent;
    letter.merchantId == intent.merchantId && letter.sessionId == intent.sessionId && letter.event == intent.event
      && letter.data == intent.data
  }

  ghost predicate LettersFaithful(q: Queue) {
    forall id :: id in q.deadLetters ==> LetterFaithful(q, id)
  }

  lemma LettersAfter(m: Machine, x: DeliveryId, env: Env)
    requires x in m.flights
    ensures var job, phase := m.flights[x].job, m.flights[x].phase;
      Advance(m, x, env).q.deadLetters ==
        if phase.Burying? && job.id !in m.q.deadLetters
          then m.q.deadLetters[job.id := LetterFor(m.q, job, phase.reason, phase.lastEntry)] else m.q.deadLetters
  {
    hide Record, Judge, AfterRecord, RequestOf, LetterFor;
    if m.flights[x].phase.Recording? {
      var job, result := m.flights[x].job, m.flights[x].phase.result;
      RecordKeepsIntents(m.q, job, result, Judge(job, result, env.now, env.rand), env.now);
    }
  }

  lemma OwnIntent(m: Machine, x: DeliveryId)
    requires Sound(m) && x in m.flights
    ensures x in m.q.rows && m.flights[x].job.id == x && m.flights[x].job.intent == m.q.rows[x].intent
  {
    assert Fits(m.flights[x].job, x, Intents(m.q.rows), m.stamps);
  }

  /** A letter has the reason and the log its worker held. */
  lemma LetterIsFaithful(q: Queue, job: Job, reason: Reason, lastEntry: Attempt)
    requires job.id in q.rows && job.intent == q.rows[job.id].intent
    ensures var letter, row := LetterFor(q, job, reason, lastEntry), q.rows[job.id];
      && letter.merchantId == row.intent.merchantId && letter.sessionId == row.intent.sessionId
      && letter.event == row.intent.event && letter.data == row.intent.data
      && letter.attempts == row.attemptLog && letter.reason == reason && letter.retriedAt.None?
  {
  }

  lemma AdvanceLetters(m: Machine, x: DeliveryId, env: Env)
    requires Sound(m) && LettersFaithful(m.q) && x in m.flights
    ensures LettersFaithful(Advance(m, x, env).q)
  {
    hide Sound, Advance, LetterFor;
    var q' := Advance(m, x, env).q;
    OwnIntent(m, x);
    LettersAfter(m, x, env);
    forall id | id in q'.deadLetters ensures LetterFaithful(q', id) {
      if id in m.q.deadLetters {
        assert LetterFaithful(m.q, id);
        AdvanceKeepsOrigin(m, x, env, id);
      } else {
        LetterIsFaithful(m.q, m.flights[x].job, m.flights[x].phase.reason, m.flights[x].phase.lastEntry);
        AdvanceKeepsOrigin(m, x, env, x);
      }
    }
  }

  lemma SameLetters(q: Queue, q': Queue)
    requires LettersFaithful(q) && q'.deadLetters.Keys == q.deadLetters.Keys
    requires forall id :: id in q.deadLetters ==>
      q'.deadLetters[id].(retriedAt := None) == q.deadLetters[id].(retriedAt := None)
    requires forall id :: id in q.rows ==> id in q'.rows && q'.rows[id].intent == q.rows[id].intent
    ensures LettersFaithful(q')
  {
    forall id | id in q'.deadLetters ensures LetterFaithful(q', id) {
      assert LetterFaithful(q, id);
    }
  }

  /** Marking a letter as retried is all a requeue does to the letters. */
  lemma RequeueMarks(m: Machine, dead: DeliveryId, id: DeliveryId, at: EnqueueClock, now: int)
    requires dead in m.q.deadLetters
    ensures var letters := Requeue(m, dead, id, at, now).q.deadLetters;
      letters == m.q.deadLetters[dead := m.q.deadLetters[dead].(retriedAt := Some(now))]
  {
  }

  lemma StepLetters(maxConcurrency: int, m: Machine, step: Step, m': Machine)
    requires Sound(m) && LettersFaithful(m.q) && Next(maxConcurrency, m, step, m')
    ensures LettersFaithful(m'.q)
  {
    hide Sound, LettersFaithful, IsTick, Advance, Enqueue, Requeue, IsRecovery, Restarted;
    forall id | id in m.q.rows ensures id in m'.q.rows && m'.q.rows[id].intent == m.q.rows[id].intent {
      OriginIsFinal(maxConcurrency, m, step, m', id);
    }
    match step
    case EnqueueStep(params, x, at) =>
      EnqueueAddsRow(m, params, x, at);
      SameLetters(m.q, m'.q);
    case RequeueStep(merchantId, dead, x, at, now) =>
      if MayRequeue(m.q, merchantId, dead) {
        RequeueMarks(m, dead, x, at, now);
      }
      SameLetters(m.q, m'.q);
    case TickStep(now, picked) =>
      TickKeepsLetters(maxConcurrency, m, now, picked, m');
      SameLetters(m.q, m'.q);
    case AdvanceStep(x, env) => AdvanceLetters(m, x, env);
    case FailStep(x) => SameLetters(m.q, m'.q);
    case CrashStep => SameLetters(m.q, m'.q);
    case RestartStep(now) =>
      RestartKeepsLetters(m, now, m');
      SameLetters(m.q, m'.q);
  }

  lemma TickKeepsLetters(maxConcurrency: int, m: Machine, now: int, picked: seq<DeliveryId>, m': Machine)
    requires Next(maxConcurrency, m, TickStep(now, picked), m')
    ensures m'.q.deadLetters == m.q.deadLetters
  {
    hide Eligible, EligibleIds, TakeOff, InOrder;
  }

  lemma RestartKeepsLetters(m: Machine, now: int, m': Machine)
    requires IsRecovery(Crashed(m).q, now, m'.q) && m' == Restarted(m, m'.q)
    ensures m'.q.deadLetters == m.q.deadLetters
  {
    hide JobsRebuilt, ScheduleRebuilt, OrderRebuilt, CountersRaised, OrphanIds;
  }

  lemma {:induction false} RunLetters(maxConcurrency: int, ms: seq<Machine>, steps: seq<Step>, j: nat)
    requires IsRun(maxConcurrency, ms, steps) && j <= |steps| < |ms|
    ensures LettersFaithful(ms[j].q)
  {
    hide *;
    if j == 0 {
      NoLettersAtFirst(maxConcurrency, ms, steps);
    } else {
      StepIsSound(maxConcurrency, ms, steps, j - 1);
      RunLetters(maxConcurrency, ms, steps, j - 1);
      StepLetters(maxConcurrency, ms[j - 1], steps[j - 1], ms[j]);
    }
  }

  lemma NoLettersAtFirst(maxConcurrency: int, ms: seq<Machine>, steps: seq<Step>)
    requires IsRun(maxConcurrency, ms, steps)
    ensures LettersFaithful(ms[0].q)
  {
    hide Next;
  }

  /** Every copy of a delivery, in its row, hash, worker, requests and dead letter, carries this content. */
  ghost predicate CarriedEverywhere(m: Machine, id: DeliveryId, merchantId: MerchantId, sid: SessionId, event: string,
        body: string) {
    && id in m.q.rows
    && (var intent := m.q.rows[id].intent;
        intent.merchantId == merchantId && intent.sessionId == sid && intent.event == event && intent.data == body)
    && (id in m.q.jobs ==>
          var intent := m.q.jobs[id].intent;
          intent.merchantId == merchantId && intent.sessionId == sid && intent.event == event && intent.data == body)
    && (id in m.flights ==>
          var intent := m.flights[id].job.intent;
          intent.merchantId == merchantId && intent.sessionId == sid && intent.event == event && intent.data == body)
    && (forall k :: 0 <= k < |m.sent| && m.sent[k].id == id ==>
          var intent := m.sent[k].intent;
          intent.merchantId == merchantId && intent.sessionId == sid && intent.event == event && intent.data == body)
    && (id in m.q.deadLetters ==>
          var letter := m.q.deadLetters[id];
          letter.merchantId == merchantId && letter.sessionId == sid && letter.event == event && letter.data == body)
  }

  lemma CopiesCarry(m: Machine, id: DeliveryId)
    requires Sound(m) && LettersFaithful(m.q) && id in m.q.rows
    ensures var intent := m.q.rows[id].intent;
      CarriedEverywhere(m, id, intent.merchantId, intent.sessionId, intent.event, intent.data)
  {
    assert id in Intents(m.q.rows);
    assert id in m.q.deadLetters ==> LetterFaithful(m.q, id);
    if id in m.q.jobs {
      assert Fits(m.q.jobs[id], id, Intents(m.q.rows), m.stamps);
    }
    if id in m.flights {
      assert Fits(m.flights[id].job, id, Intents(m.q.rows), m.stamps);
    }
  }

  lemma CarriedLater(maxConcurrency: int, ms: seq<Machine>, steps: seq<Step>, i: nat, j: nat, id: DeliveryId)
    requires IsRun(maxConcurrency, ms, steps) && i <= j <= |steps| < |ms| && id in ms[i].q.rows
    ensures var intent := ms[i].q.rows[id].intent;
      CarriedEverywhere(ms[j], id, intent.merchantId, intent.sessionId, intent.event, intent.data)
  {
    hide *;
    OriginStays(maxConcurrency, ms, steps, i, j, id);
    SoundAt(maxConcurrency, ms, steps, j);
    RunLetters(maxConcurrency, ms, steps, j);
    CopiesCarry(ms[j], id);
  }

  /** From its enqueue on, in every run and whatever fails, every copy of a delivery carries the merchant, session,
      event and body that were given. */
  lemma CarriedAsEnqueued(maxConcurrency: int, ms: seq<Machine>, steps: seq<Step>, i: nat, j: nat,
        params: EnqueueParams, id: DeliveryId, at: EnqueueClock)
    requires IsRun(maxConcurrency, ms, steps) && i < j <= |steps| < |ms| && steps[i] == EnqueueStep(params, id, at)
    ensures CarriedEverywhere(ms[j], id, params.merchantId,
                              match params.sessionId case None => 0 case Some(sid) => sid, params.event, params.body)
    ensures ms[j].q.rows[id].createdAt == at.createdAt
  {
    assert Next(maxConcurrency, ms[i], steps[i], ms[i + 1]);
    hide IsRun, CarriedEverywhere, Enqueued;
    EnqueueWrites(ms[i].q, params, id, at);
    CarriedLater(maxConcurrency, ms, steps, i + 1, j, id);
    OriginStays(maxConcurrency, ms, steps, i + 1, j, id);
  }

  /** A dead letter requeued by its merchant becomes a fresh delivery that carries, from then on, what the original one
      carried; requeued by anyone else, nothing changes. */
  lemma CarriedAsOriginal(maxConcurrency: int, ms: seq<Machine>, steps: seq<Step>, i: nat, j: nat,
        merchantId: MerchantId, dead: DeliveryId, id: DeliveryId, at: EnqueueClock, now: int)
    requires IsRun(maxConcurrency, ms, steps) && i < j <= |steps| < |ms|
    requires steps[i] == RequeueStep(merchantId, dead, id, at, now)
    ensures dead in ms[i].q.deadLetters && ms[i].q.deadLetters[dead].merchantId == merchantId ==>
      && dead in ms[i].q.rows
      && var original := ms[i].q.rows[dead].intent;
        CarriedEverywhere(ms[j], id, original.merchantId, original.sessionId, original.event, original.data)
    ensures dead in ms[i].q.deadLetters && ms[i].q.deadLetters[dead].merchantId == merchantId ==>
      ms[i + 1].q.deadLetters == ms[i].q.deadLetters[dead := ms[i].q.deadLetters[dead].(retriedAt := Some(now))]
    ensures !(dead in ms[i].q.deadLetters && ms[i].q.deadLetters[dead].merchantId == merchantId) ==> ms[i + 1] == ms[i]
  {
    assert Next(maxConcurrency, ms[i], steps[i], ms[i + 1]);
    hide IsRun, CarriedEverywhere, Requeue, Sound;
    if MayRequeue(ms[i].q, merchantId, dead) {
      RunLetters(maxConcurrency, ms, steps, i);
      assert LetterFaithful(ms[i].q, dead);
      RequeueMarks(ms[i], dead, id, at, now);
      RequeueCopies(ms[i], dead, id, at, now);
      CarriedLater(maxConcurrency, ms, steps, i + 1, j, id);
    }
  }

  lemma RequeueCopies(m: Machine, dead: DeliveryId, id: DeliveryId, at: EnqueueClock, now: int)
    requires dead in m.q.deadLetters
    ensures var m' := Requeue(m, dead, id, at, now);
      && id in m'.q.rows
      && var letter, intent := m.q.deadLetters[dead], m'.q.rows[id].intent;
        intent.merchantId == letter.merchantId && intent.sessionId == letter.sessionId && intent.event == letter.event
          && intent.data == letter.data
  {
    hide PriorityFor;
  }

  // ---------------------------------------------------------------- timestamps

  /** Whatever was or would be signed for the delivery is among these times. */
  ghost predicate SignedWithin(m: Machine, id: DeliveryId, times: set<int>) {
    && id in m.stamps && m.stamps[id] in times
    && forall k :: 0 <= k < |m.sent| && m.sent[k].id == id ==> m.sent[k].timestamp in times
  }

  lemma AdvanceSigns(m: Machine, x: DeliveryId, env: Env, id: DeliveryId, times: set<int>)
    requires Sound(m) && x in m.flights && SignedWithin(m, id, times)
    ensures SignedWithin(Advance(m, x, env), id, times)
  {
    assert Fits(m.flights[x].job, x, Intents(m.q.rows), m.stamps);
    hide Sound;
    AdvanceSends(m, x, env);
    StampsStay(m, x, env);
    hide Advance;
  }

  lemma StampsStay(m: Machine, x: DeliveryId, env: Env)
    requires x in m.flights
    ensures Advance(m, x, env).stamps == m.stamps
  {
    hide Record, Judge, AfterRecord, RequestOf, LetterFor;
  }

  lemma StepSigns(maxConcurrency: int, m: Machine, step: Step, m': Machine, id: DeliveryId, times: set<int>)
    requires Sound(m) && Next(maxConcurrency, m, step, m') && SignedWithin(m, id, times) && id in m.q.rows
    requires step.RestartStep? ==> m.q.rows[id].createdAt in times
    ensures SignedWithin(m', id, times)
  {
    hide Sound, IsTick, Advance, IsRecovery, Enqueued, OrphanIds;
    if step.AdvanceStep? {
      AdvanceSigns(m, step.id, step.env, id, times);
    }
  }

  lemma {:induction false} StaysSigned(maxConcurrency: int, ms: seq<Machine>, steps: seq<Step>, i: nat, j: nat,
        id: DeliveryId, times: set<int>)
    requires IsRun(maxConcurrency, ms, steps) && i <= j <= |steps| < |ms|
    requires id in ms[i].q.rows && SignedWithin(ms[i], id, times)
    requires (forall n :: i <= n < j ==> !steps[n].RestartStep?) || ms[i].q.rows[id].createdAt in times
    ensures SignedWithin(ms[j], id, times)
    decreases j - i
  {
    hide *;
    if i < j {
      StepIsSound(maxConcurrency, ms, steps, j - 1);
      StaysSigned(maxConcurrency, ms, steps, i, j - 1, id, times);
      OriginStays(maxConcurrency, ms, steps, i, j - 1, id);
      StepSigns(maxConcurrency, ms[j - 1], steps[j - 1], ms[j], id, times);
    }
  }

  lemma EnqueueSigns(m: Machine, params: EnqueueParams, id: DeliveryId, at: EnqueueClock, times: set<int>)
    requires Sound(m) && id !in m.q.rows && at.timestamp in times
    ensures var m' := Enqueue(m, params, id, at);
      SignedWithin(m', id, times) && id in m'.q.rows && m'.q.rows[id].createdAt == at.createdAt
  {
    assert id !in Intents(m.q.rows);
    hide PriorityFor;
  }

  /** Every request of a delivery is signed with the timestamp of its enqueue, unless a restart may have revived it:
      then with that or the creation time of its row. */
  lemma SignedAsEnqueued(maxConcurrency: int, ms: seq<Machine>, steps: seq<Step>, i: nat, j: nat,
        params: EnqueueParams, id: DeliveryId, at: EnqueueClock, k: nat)
    requires IsRun(maxConcurrency, ms, steps) && i < j <= |steps| < |ms| && steps[i] == EnqueueStep(params, id, at)
    requires k < |ms[j].sent| && ms[j].sent[k].id == id
    ensures ms[j].sent[k].timestamp == at.timestamp || ms[j].sent[k].timestamp == at.createdAt
    ensures (forall n :: i < n < j ==> !steps[n].RestartStep?) ==> ms[j].sent[k].timestamp == at.timestamp
  {
    hide IsRun, Sound, Enqueue;
    StepIsSound(maxConcurrency, ms, steps, i);
    EnqueueSigns(ms[i], params, id, at, {at.timestamp, at.createdAt});
    StaysSigned(maxConcurrency, ms, steps, i + 1, j, id, {at.timestamp, at.createdAt});
    if forall n :: i < n < j ==> !steps[n].RestartStep? {
      EnqueueSigns(ms[i], params, id, at, {at.timestamp});
      StaysSigned(maxConcurrency, ms, steps, i + 1, j, id, {at.timestamp});
    }
  }

  // ---------------------------------------------------------------- numbering

  function DeliveriesOf(rows: map<DeliveryId, Row>, sid: SessionId): set<DeliveryId> {
    set id | id in rows.Keys && rows[id].intent.sessionId == sid
  }

  /** The counter of a session is the number of its deliveries, and they are numbered from one. */
  ghost predicate NumberedFromOne(rows: map<DeliveryId, Row>, seqs: map<SessionId, nat>) {
    && (forall sid :: sid != NO_SESSION ==>
          (if sid in seqs then seqs[sid] else 0) == |DeliveriesOf(rows, sid)|)
    && (forall id :: id in rows && rows[id].intent.sessionId != NO_SESSION ==> rows[id].intent.sequence >= 1)
  }

  lemma OneMoreDelivery(rows: map<DeliveryId, Row>, id: DeliveryId, row: Row, sid: SessionId)
    requires id !in rows
    ensures row.intent.sessionId == sid ==> |DeliveriesOf(rows[id := row], sid)| == |DeliveriesOf(rows, sid)| + 1
    ensures row.intent.sessionId != sid ==> |DeliveriesOf(rows[id := row], sid)| == |DeliveriesOf(rows, sid)|
  {
    if row.intent.sessionId == sid {
      assert DeliveriesOf(rows[id := row], sid) == DeliveriesOf(rows, sid) + {id};
    } else {
      assert DeliveriesOf(rows[id := row], sid) == DeliveriesOf(rows, sid);
    }
  }

  lemma EnqueueCounts(q: Queue, params: EnqueueParams, id: DeliveryId, at: EnqueueClock)
    ensures var q', sid := Enqueued(q, params, id, at), SessionOf(params);
      && q'.rows == q.rows[id := NewRow(NewIntent(params, NextSequence(q, sid)), at)]
      && q'.seqs == if sid == NO_SESSION then q.seqs else q.seqs[sid := NextSequence(q, sid)]
  {
    hide NewIntent;
  }

  lemma EnqueueNumbersNext(q: Queue, params: EnqueueParams, id: DeliveryId, at: EnqueueClock)
    requires NumberedFromOne(q.rows, q.seqs) && id !in q.rows
    ensures var q' := Enqueued(q, params, id, at); NumberedFromOne(q'.rows, q'.seqs)
  {
    hide PriorityFor, Enqueued, DeliveriesOf;
    var q' := Enqueued(q, params, id, at);
    EnqueueCounts(q, params, id, at);
    forall sid | sid != NO_SESSION
      ensures (if sid in q'.seqs then q'.seqs[sid] else 0) == |DeliveriesOf(q'.rows, sid)|
    {
      OneMoreDelivery(q.rows, id, q'.rows[id], sid);
    }
  }

  lemma SameNumbers(rows: map<DeliveryId, Row>, rows': map<DeliveryId, Row>, seqs: map<SessionId, nat>,
        seqs': map<SessionId, nat>)
    requires NumberedFromOne(rows, seqs) && Intents(rows') == Intents(rows)
    requires forall sid :: (sid in seqs <==> sid in seqs') && (sid in seqs ==> seqs'[sid] == seqs[sid])
    ensures NumberedFromOne(rows', seqs')
  {
    assert Intents(rows').Keys == rows'.Keys && Intents(rows).Keys == rows.Keys;
    forall id | id in rows ensures id in rows' && rows'[id].intent == rows[id].intent {
      assert id in Intents(rows') && Intents(rows')[id] == Intents(rows)[id];
    }
    forall sid | sid != NO_SESSION
      ensures (if sid in seqs' then seqs'[sid] else 0) == |DeliveriesOf(rows', sid)|
    {
      assert DeliveriesOf(rows', sid) == DeliveriesOf(rows, sid);
    }
  }

  lemma RevivedIsCounted(q: Queue, ids: set<DeliveryId>, sid: SessionId, id: DeliveryId)
    requires ids <= q.rows.Keys && RevivedEntry(q, ids, (sid, id)) && Numbered(Intents(q.rows), q.seqs)
    ensures sid in q.seqs && q.rows[id].intent.sequence <= q.seqs[sid]
  {
    assert id in Intents(q.rows);
  }

  /** In the runs here Redis keeps its counters, so a sweep has nothing to raise. */
  lemma SweepRaisesNothing(q: Queue, ids: set<DeliveryId>, seqs: map<SessionId, nat>)
    requires ids <= q.rows.Keys && CountersRaised(q, ids, seqs) && Numbered(Intents(q.rows), q.seqs)
    ensures forall sid :: (sid in q.seqs <==> sid in seqs) && (sid in q.seqs ==> seqs[sid] == q.seqs[sid])
  {
    hide Numbered, Intents;
    forall sid | sid in seqs ensures sid in q.seqs && seqs[sid] == q.seqs[sid] {
      if !(sid in q.seqs && seqs[sid] == q.seqs[sid]) {
        var id :| RevivedEntry(q, ids, (sid, id)) && seqs[sid] == q.rows[id].intent.sequence;
        RevivedIsCounted(q, ids, sid, id);
      }
    }
  }

  lemma CountersUntouched(q: Queue, job: Job, next: Job, reason: Reason, lastEntry: Attempt)
    ensures Unschedule(q, job.id).seqs == Unorder(q, job).seqs == DeleteJob(q, job.id).seqs == q.seqs
    ensures Schedule(q, job.id, job.availableAt).seqs == Release(q, job).seqs == WriteJob(q, next).seqs == q.seqs
    ensures Bury(q, job, reason, lastEntry).seqs == q.seqs
  {
    hide LetterFor;
  }

  lemma AdvanceKeepsCounters(m: Machine, x: DeliveryId, env: Env)
    requires x in m.flights
    ensures Advance(m, x, env).q.seqs == m.q.seqs
  {
    hide Record, Judge, AfterRecord, RequestOf, LetterFor, Unschedule, Unorder, DeleteJob, Schedule, Release, WriteJob,
      Bury;
    var job, phase := m.flights[x].job, m.flights[x].phase;
    CountersUntouched(m.q, job, if phase.Rewriting? then phase.next else job,
                      if phase.Burying? then phase.reason else MaxAttempts,
                      if phase.Burying? then phase.lastEntry else Attempt(0, 0, None, None));
    if phase.Recording? {
      RecordKeepsIntents(m.q, job, phase.result, Judge(job, phase.result, env.now, env.rand), env.now);
    }
  }

  lemma OrphansAreKnown(q: Queue)
    ensures OrphanIds(q) <= q.rows.Keys
  {
  }

  lemma RestartNumbers(m: Machine, now: int, m': Machine)
    requires Sound(m) && NumberedFromOne(m.q.rows, m.q.seqs)
    requires IsRecovery(Crashed(m).q, now, m'.q) && m' == Restarted(m, m'.q)
    ensures NumberedFromOne(m'.q.rows, m'.q.seqs)
  {
    hide NumberedFromOne, Ranked, FaithfulJobs, FaithfulFlights, Scheduled, ClosedInTurn, InFront, CleanedInTurn,
      Booked, SentFaithfully, JobsRebuilt, ScheduleRebuilt, OrderRebuilt, CountersRaised, OrphanIds, Numbered;
    OrphansAreKnown(Crashed(m).q);
    SweepRaisesNothing(Crashed(m).q, OrphanIds(Crashed(m).q), m'.q.seqs);
    SameNumbers(m.q.rows, m'.q.rows, m.q.seqs, m'.q.seqs);
  }

  lemma StepNumbers(maxConcurrency: int, m: Machine, step: Step, m': Machine)
    requires Sound(m) && NumberedFromOne(m.q.rows, m.q.seqs) && Next(maxConcurrency, m, step, m')
    ensures NumberedFromOne(m'.q.rows, m'.q.seqs)
  {
    hide Sound, NumberedFromOne, Advance, Enqueued, IsRecovery, Restarted, Eligible, EligibleIds, InOrder, Intents;
    match step
    case EnqueueStep(params, id, at) => EnqueueNumbersNext(m.q, params, id, at);
    case RequeueStep(merchantId, dead, id, at, now) =>
      if MayRequeue(m.q, merchantId, dead) {
        EnqueueNumbersNext(m.q, RequeueParams(m.q.deadLetters[dead]), id, at);
      }
    case TickStep(now, picked) =>
    case AdvanceStep(x, env) =>
      AdvanceKeepsIntents(m, x, env);
      AdvanceKeepsCounters(m, x, env);
      SameNumbers(m.q.rows, m'.q.rows, m.q.seqs, m'.q.seqs);
    case FailStep(x) =>
    case CrashStep =>
    case RestartStep(now) => RestartNumbers(m, now, m');
  }

  lemma {:induction false} RunNumbers(maxConcurrency: int, ms: seq<Machine>, steps: seq<Step>, j: nat)
    requires IsRun(maxConcurrency, ms, steps) && j <= |steps| < |ms|
    ensures NumberedFromOne(ms[j].q.rows, ms[j].q.seqs)
  {
    hide *;
    if j == 0 {
      NothingNumberedAtFirst(maxConcurrency, ms, steps);
    } else {
      StepIsSound(maxConcurrency, ms, steps, j - 1);
      RunNumbers(maxConcurrency, ms, steps, j - 1);
      StepNumbers(maxConcurrency, ms[j - 1], steps[j - 1], ms[j]);
    }
  }

  lemma NothingNumberedAtFirst(maxConcurrency: int, ms: seq<Machine>, steps: seq<Step>)
    requires IsRun(maxConcurrency, ms, steps)
    ensures NumberedFromOne(ms[0].q.rows, ms[0].q.seqs)
  {
    hide Next;
    forall sid | sid != NO_SESSION ensures |DeliveriesOf(ms[0].q.rows, sid)| == 0 {
      assert DeliveriesOf(ms[0].q.rows, sid) == {};
    }
  }

  /** In every run the n deliveries enqueued for a session are numbered 1 to n, each number once, and the next one
      enqueued gets n + 1. */
  lemma SessionsAreNumbered(maxConcurrency: int, ms: seq<Machine>, steps: seq<Step>, j: nat, sid: SessionId)
    requires IsRun(maxConcurrency, ms, steps) && j <= |steps| < |ms| && sid != NO_SESSION
    ensures var rows, ids := ms[j].q.rows, DeliveriesOf(ms[j].q.rows, sid);
      && (forall id :: id in ids ==> 1 <= rows[id].intent.sequence <= |ids|)
      && (forall a, b :: a in ids && b in ids && a != b ==> rows[a].intent.sequence != rows[b].intent.sequence)
    ensures j < |steps| && steps[j].EnqueueStep? && steps[j].params.sessionId == Some(sid) ==>
      && steps[j].id in ms[j + 1].q.rows
      && ms[j + 1].q.rows[steps[j].id].intent.sequence == |DeliveriesOf(ms[j].q.rows, sid)| + 1
  {
    hide IsRun, Sound, Enqueued;
    RunNumbers(maxConcurrency, ms, steps, j);
    SoundAt(maxConcurrency, ms, steps, j);
    DistinctAndBounded(ms[j], sid);
    if j < |steps| && steps[j].EnqueueStep? && steps[j].params.sessionId == Some(sid) {
      StepIsSound(maxConcurrency, ms, steps, j);
      EnqueueWrites(ms[j].q, steps[j].params, steps[j].id, steps[j].at);
    }
  }

  lemma DistinctAndBounded(m: Machine, sid: SessionId)
    requires Sound(m) && sid != NO_SESSION && NumberedFromOne(m.q.rows, m.q.seqs)
    ensures var rows, ids := m.q.rows, DeliveriesOf(m.q.rows, sid);
      && (forall id :: id in ids ==> 1 <= rows[id].intent.sequence <= |ids|)
      && (forall a, b :: a in ids && b in ids && a != b ==> rows[a].intent.sequence != rows[b].intent.sequence)
  {
    var ids := DeliveriesOf(m.q.rows, sid);
    forall id | id in ids ensures 1 <= m.q.rows[id].intent.sequence <= |ids| {
      assert id in Intents(m.q.rows);
    }
    forall a, b | a in ids && b in ids && a != b
      ensures m.q.rows[a].intent.sequence != m.q.rows[b].intent.sequence
    {
      DistinctSequences(m, sid, a, b);
    }
  }

  // ---------------------------------------------------------------- what a row tells

  lemma RecordedDelivery(q: Queue, id: DeliveryId, status: DeliveryStatus, attempts: nat, entry: Attempt,
        nextRetryAt: Option<int>, now: int)
    requires id in q.rows
    ensures var q' := RecordDelivery(q, id, status, attempts, entry, nextRetryAt, now);
      && id in q'.rows
      && var row, row' := q.rows[id], q'.rows[id];
        && row'.attempts == attempts && row'.attemptLog == row.attemptLog + [entry] && row'.status == status
        && row'.responseStatus == entry.status && row'.nextRetryAt == nextRetryAt
        && row'.deliveredAt == (if status.Delivered? then Some(now) else None)
  {
  }

  lemma RecordedRow(q: Queue, job: Job, result: DeliveryResult, now: int, rand: real)
    requires job.id in q.rows
    ensures var q', due := Record(q, job, result, Judge(job, result, now, rand), now),
        now + BackoffDelayMs(job.attempt + 1, rand);
      var again := result.outcome.Retry? && job.attempt < 4;
      && job.id in q'.rows
      && var row, row' := q.rows[job.id], q'.rows[job.id];
        && row'.attempts == job.attempt + 1
        && row'.attemptLog == row.attemptLog + [Attempt(job.attempt + 1, now, result.status, result.error)]
        && row'.responseStatus == result.status
        && row'.status == (if result.outcome.Success? then Delivered else if again then Failed else DeliveryStatus.Dead)
        && row'.deliveredAt == (if result.outcome.Success? then Some(now) else None)
        && row'.nextRetryAt == (if again then Some(due) else None)
  {
    hide BackoffDelayMs, RecordDelivery;
    var entry, due := EntryFor(job, result, now), now + BackoffDelayMs(job.attempt + 1, rand);
    var again := result.outcome.Retry? && job.attempt < 4;
    RecordedDelivery(q, job.id,
                     if result.outcome.Success? then Delivered else if again then Failed else DeliveryStatus.Dead,
                     job.attempt + 1, entry, if again then Some(due) else None, now);
  }

  lemma AfterRecorded(job: Job, result: DeliveryResult, now: int, rand: real)
    ensures var phase, due := AfterRecord(job, result, Judge(job, result, now, rand), now),
        now + BackoffDelayMs(job.attempt + 1, rand);
      var again := result.outcome.Retry? && job.attempt < 4;
      && (result.outcome.Success? ==> phase.Unscheduling?)
      && (result.outcome.Dead? ==> phase.Burying? && phase.reason == Http4xx(result.status))
      && (result.outcome.Retry? && !again ==> phase.Burying? && phase.reason == MaxAttempts)
      && (again ==> phase == Rewriting(Job(job.id, job.intent, job.timestamp, job.attempt + 1, due)))
  {
    hide BackoffDelayMs;
  }

  /** What recording an answer writes, and where it leaves the worker. */
  lemma RecordTells(m: Machine, id: DeliveryId, env: Env)
    requires id in m.q.rows && id in m.flights && m.flights[id].phase.Recording? && m.flights[id].job.id == id
    ensures var m', job, result := Advance(m, id, env), m.flights[id].job, m.flights[id].phase.result;
      var due := env.now + BackoffDelayMs(job.attempt + 1, env.rand);
      var again := result.outcome.Retry? && job.attempt < 4;
      && id in m'.q.rows && id in m'.flights
      && var row, row', phase := m.q.rows[id], m'.q.rows[id], m'.flights[id].phase;
        && row'.attempts == job.attempt + 1
        && row'.attemptLog == row.attemptLog + [Attempt(job.attempt + 1, env.now, result.status, result.error)]
        && row'.responseStatus == result.status
        && row'.status == (if result.outcome.Success? then Delivered else if again then Failed else DeliveryStatus.Dead)
        && row'.deliveredAt == (if result.outcome.Success? then Some(env.now) else None)
        && row'.nextRetryAt == (if again then Some(due) else None)
        && (result.outcome.Success? ==> phase.Unscheduling?)
        && (result.outcome.Dead? ==> phase.Burying? && phase.reason == Http4xx(result.status))
        && (result.outcome.Retry? && !again ==> phase.Burying? && phase.reason == MaxAttempts)
        && (again ==> phase == Rewriting(Job(id, job.intent, job.timestamp, job.attempt + 1, due)))
  {
    hide BackoffDelayMs, Record, Judge, AfterRecord;
    var job, result := m.flights[id].job, m.flights[id].phase.result;
    RecordedRow(m.q, job, result, env.now, env.rand);
    AfterRecorded(job, result, env.now, env.rand);
  }

  /** The columns agree: nothing before the first attempt, and then the last entry's status, the time of a delivery
      exactly when delivered, and the next attempt's time exactly when it is still to be retried. */
  predicate RowTells(row: Row) {
    && (row.status.Pending? <==> row.attemptLog == [])
    && (row.attemptLog == [] ==> row.responseStatus.None? && row.deliveredAt.None? && row.nextRetryAt.None?)
    && (row.attemptLog != [] ==> row.responseStatus == row.attemptLog[|row.attemptLog| - 1].status)
    && (row.status.Delivered? ==> row.deliveredAt == Some(row.attemptLog[|row.attemptLog| - 1].timestamp))
    && (row.deliveredAt.Some? <==> row.status.Delivered?)
    && (row.nextRetryAt.Some? <==> row.status.Failed?)
  }

  lemma RecordedRowTells(m: Machine, id: DeliveryId, env: Env)
    requires id in m.q.rows && id in m.flights && m.flights[id].phase.Recording? && m.flights[id].job.id == id
    ensures id in Advance(m, id, env).q.rows && RowTells(Advance(m, id, env).q.rows[id])
  {
    hide Advance, BackoffDelayMs;
    RecordTells(m, id, env);
  }

  lemma NewRowTells(q: Queue, params: EnqueueParams, id: DeliveryId, at: EnqueueClock)
    ensures id in Enqueued(q, params, id, at).rows && RowTells(Enqueued(q, params, id, at).rows[id])
  {
    hide Enqueued;
    EnqueueWrites(q, params, id, at);
  }

  lemma OnlyEnqueuesAdd(maxConcurrency: int, m: Machine, step: Step, m': Machine, id: DeliveryId)
    requires Next(maxConcurrency, m, step, m') && id !in m.q.rows && id in m'.q.rows
    ensures RowTells(m'.q.rows[id])
  {
    hide IsTick, Advance, Enqueued, JobsRebuilt, ScheduleRebuilt, OrderRebuilt, CountersRaised, OrphanIds, RowTells;
    match step
    case EnqueueStep(params, x, at) =>
      NewRowTells(m.q, params, x, at);
      EnqueueAddsRow(m, params, x, at);
    case RequeueStep(merchantId, dead, x, at, now) =>
      if MayRequeue(m.q, merchantId, dead) {
        NewRowTells(m.q, RequeueParams(m.q.deadLetters[dead]), x, at);
        EnqueueAddsRow(m, RequeueParams(m.q.deadLetters[dead]), x, at);
      }
    case TickStep(now, picked) => TickKeepsRows(maxConcurrency, m, now, picked, m');
    case AdvanceStep(x, env) => AdvanceAddsNoRow(m, x, env);
    case FailStep(x) =>
    case CrashStep =>
    case RestartStep(now) =>
  }

  lemma AdvanceAddsNoRow(m: Machine, x: DeliveryId, env: Env)
    requires x in m.flights
    ensures Advance(m, x, env).q.rows.Keys == m.q.rows.Keys
  {
    AdvanceKeepsIntents(m, x, env);
    assert Intents(Advance(m, x, env).q.rows).Keys == Advance(m, x, env).q.rows.Keys;
    assert Intents(m.q.rows).Keys == m.q.rows.Keys;
    hide Advance;
  }

  lemma StepTells(maxConcurrency: int, m: Machine, step: Step, m': Machine, id: DeliveryId)
    requires Sound(m) && Next(maxConcurrency, m, step, m') && id in m'.q.rows
    requires id in m.q.rows ==> RowTells(m.q.rows[id])
    ensures RowTells(m'.q.rows[id])
  {
    hide Sound, RowTells, IsTick, Advance, Enqueue, Requeue, IsRecovery, Restarted;
    if id !in m.q.rows {
      OnlyEnqueuesAdd(maxConcurrency, m, step, m', id);
    } else {
      RowChangesIff(maxConcurrency, m, step, m', id);
      if Records(m, step, id) {
        OwnIntent(m, id);
        RecordedRowTells(m, id, step.env);
      }
    }
  }

  /** In every run the columns of every row agree. */
  lemma {:induction false} RowsTell(maxConcurrency: int, ms: seq<Machine>, steps: seq<Step>, j: nat, id: DeliveryId)
    requires IsRun(maxConcurrency, ms, steps) && j <= |steps| < |ms| && id in ms[j].q.rows
    ensures RowTells(ms[j].q.rows[id])
  {
    hide *;
    if j == 0 {
      NoRowAtFirst(maxConcurrency, ms, steps);
    } else {
      StepIsSound(maxConcurrency, ms, steps, j - 1);
      if id in ms[j - 1].q.rows {
        RowsTell(maxConcurrency, ms, steps, j - 1, id);
      }
      StepTells(maxConcurrency, ms[j - 1], steps[j - 1], ms[j], id);
    }
  }

  lemma NoRowAtFirst(maxConcurrency: int, ms: seq<Machine>, steps: seq<Step>)
    requires IsRun(maxConcurrency, ms, steps)
    ensures ms[0].q.rows == map[]
  {
    hide Next;
  }

  // ---------------------------------------------------------------- the announced retry

  /** The hash, or the one about to be written, is due when the row says the next attempt is. */
  predicate Announced(m: Machine, id: DeliveryId)
    requires id in m.q.rows
  {
    m.q.rows[id].status.Failed? ==>
      && m.q.rows[id].nextRetryAt.Some?
      && var at := m.q.rows[id].nextRetryAt.value;
        if id in m.flights && m.flights[id].phase.Rewriting? then m.flights[id].phase.next.availableAt == at
        else id in m.q.jobs ==> m.q.jobs[id].availableAt == at
  }

  lemma AnnouncedByRecord(m: Machine, m': Machine, id: DeliveryId)
    requires id in m.q.rows && id in m'.q.rows && SameRecord(m, m', id) && Announced(m, id)
    ensures Announced(m', id)
  {
    hide Requests;
  }

  lemma RecordAnnounces(m: Machine, id: DeliveryId, env: Env)
    requires OwnJob(m, id) && m.flights[id].phase.Recording?
    ensures id in Advance(m, id, env).q.rows && Announced(Advance(m, id, env), id)
  {
    hide BackoffDelayMs, Advance;
    RecordTells(m, id, env);
  }

  lemma RewriteAnnounces(m: Machine, id: DeliveryId, env: Env)
    requires OwnJob(m, id) && Announced(m, id) && m.flights[id].phase.Rewriting?
    ensures id in Advance(m, id, env).q.rows && Announced(Advance(m, id, env), id)
  {
  }

  lemma StillNotRewriting(m: Machine, id: DeliveryId, env: Env)
    requires id in m.flights && !m.flights[id].phase.Recording?
    ensures id in Advance(m, id, env).flights ==> !Advance(m, id, env).flights[id].phase.Rewriting?
  {
    hide RequestOf, LetterFor, Release, Unschedule, Unorder, DeleteJob, WriteJob, Schedule;
  }

  lemma CommandAnnounces(m: Machine, id: DeliveryId, env: Env)
    requires OwnJob(m, id) && Announced(m, id)
    requires !m.flights[id].phase.Recording? && !m.flights[id].phase.Rewriting?
    ensures id in Advance(m, id, env).q.rows && Announced(Advance(m, id, env), id)
  {
    hide Advance;
    OnlyRecordingTouchesRows(m, id, env);
    StillNotRewriting(m, id, env);
    AdvanceWrites(m, id, env);
  }

  lemma OwnAnnounces(m: Machine, id: DeliveryId, env: Env)
    requires OwnJob(m, id) && Announced(m, id)
    ensures id in Advance(m, id, env).q.rows && Announced(Advance(m, id, env), id)
  {
    hide Announced, Advance;
    if m.flights[id].phase.Recording? {
      RecordAnnounces(m, id, env);
    } else if m.flights[id].phase.Rewriting? {
      RewriteAnnounces(m, id, env);
    } else {
      CommandAnnounces(m, id, env);
    }
  }

  lemma AdvanceAnnounces(m: Machine, x: DeliveryId, env: Env, id: DeliveryId)
    requires Sound(m) && x in m.flights && id in m.q.rows && Announced(m, id)
    ensures id in Advance(m, x, env).q.rows && Announced(Advance(m, x, env), id)
  {
    hide Sound, OwnJob, Announced, Advance, SameRecord;
    OwnJobOf(m, x);
    if x == id {
      OwnAnnounces(m, id, env);
    } else {
      AdvanceElsewhere(m, x, env, id);
      AnnouncedByRecord(m, Advance(m, x, env), id);
    }
  }

  lemma TickTakesOff(maxConcurrency: int, m: Machine, now: int, picked: seq<DeliveryId>, m': Machine)
    requires m.q.processing == m.flights.Keys && Next(maxConcurrency, m, TickStep(now, picked), m')
    ensures m'.q.rows == m.q.rows && m'.q.jobs == m.q.jobs
    ensures (forall x :: x in picked ==> x in m.q.jobs && x !in m.flights) && m'.flights == TakeOff(m, picked)
  {
    hide Eligible, EligibleIds, InOrder, StaleIds, TakeOff;
    PickedAreFree(m, now, picked);
  }

  lemma TickAnnounces(maxConcurrency: int, m: Machine, now: int, picked: seq<DeliveryId>, m': Machine, id: DeliveryId)
    requires Sound(m) && Next(maxConcurrency, m, TickStep(now, picked), m') && id in m.q.rows && Announced(m, id)
    ensures id in m'.q.rows && Announced(m', id)
  {
    hide Next, Numbered, Ranked, FaithfulJobs, FaithfulFlights, Scheduled, ClosedInTurn, InFront, CleanedInTurn,
      SentFaithfully;
    TickTakesOff(maxConcurrency, m, now, picked, m');
  }

  lemma NewAnnounces(m: Machine, params: EnqueueParams, x: DeliveryId, at: EnqueueClock, id: DeliveryId)
    requires x !in m.q.rows && (id in m.q.rows ==> Announced(m, id)) && id in Enqueue(m, params, x, at).q.rows
    ensures Announced(Enqueue(m, params, x, at), id)
  {
    hide SameRecord;
    EnqueueWrites(m.q, params, x, at);
    if id != x {
      EnqueueElsewhere(m, params, x, at, id);
      AnnouncedByRecord(m, Enqueue(m, params, x, at), id);
    }
    hide Enqueued;
  }

  lemma RequeueAnnounces(m: Machine, dead: DeliveryId, x: DeliveryId, at: EnqueueClock, now: int, id: DeliveryId)
    requires x !in m.q.rows && (id in m.q.rows ==> Announced(m, id)) && dead in m.q.deadLetters
    requires id in Requeue(m, dead, x, at, now).q.rows
    ensures Announced(Requeue(m, dead, x, at, now), id)
  {
    hide SameRecord, Announced, Enqueue, Requeue;
    RequeueElsewhere(m, dead, x, at, now, id);
    NewAnnounces(m, RequeueParams(m.q.deadLetters[dead]), x, at, id);
    AnnouncedByRecord(Enqueue(m, RequeueParams(m.q.deadLetters[dead]), x, at), Requeue(m, dead, x, at, now), id);
  }

  lemma StepAnnounces(maxConcurrency: int, m: Machine, step: Step, m': Machine, id: DeliveryId)
    requires Sound(m) && Next(maxConcurrency, m, step, m') && FailureFree(step)
    requires id in m'.q.rows && (id in m.q.rows ==> Announced(m, id))
    ensures Announced(m', id)
  {
    hide Sound, Announced, IsTick, Advance, Enqueue, Requeue;
    match step
    case EnqueueStep(params, x, at) => NewAnnounces(m, params, x, at, id);
    case RequeueStep(merchantId, dead, x, at, now) =>
      if MayRequeue(m.q, merchantId, dead) {
        RequeueAnnounces(m, dead, x, at, now, id);
      }
    case TickStep(now, picked) =>
      TickKeepsRows(maxConcurrency, m, now, picked, m');
      TickAnnounces(maxConcurrency, m, now, picked, m', id);
    case AdvanceStep(x, env) =>
      AdvanceAddsNoRow(m, x, env);
      AdvanceAnnounces(m, x, env, id);
  }

  lemma {:induction false} RunAnnounces(maxConcurrency: int, ms: seq<Machine>, steps: seq<Step>, j: nat, id: DeliveryId)
    requires IsFailureFreeRun(maxConcurrency, ms, steps) && j <= |steps| < |ms| && id in ms[j].q.rows
    ensures Announced(ms[j], id)
  {
    hide IsRun, Announced, Next, Sound;
    if j == 0 {
      NoRowAtFirst(maxConcurrency, ms, steps);
    } else {
      StepIsSound(maxConcurrency, ms, steps, j - 1);
      if id in ms[j - 1].q.rows {
        RunAnnounces(maxConcurrency, ms, steps, j - 1, id);
      }
      StepAnnounces(maxConcurrency, ms[j - 1], steps[j - 1], ms[j], id);
    }
  }

  /** In failure-free runs a delivery that failed waits until exactly the time its row announces, unless it was
      dropped. */
  lemma WaitsAsAnnounced(maxConcurrency: int, ms: seq<Machine>, steps: seq<Step>, j: nat, id: DeliveryId)
    requires IsFailureFreeRun(maxConcurrency, ms, steps) && j <= |steps| < |ms| && id in ms[j].q.rows
    requires ms[j].q.rows[id].status.Failed? && id !in ms[j].flights && id !in ms[j].dropped
    ensures id in ms[j].q.scheduled && ms[j].q.rows[id].nextRetryAt == Some(ms[j].q.scheduled[id])
  {
    hide IsFailureFreeRun, IsHarmlessRun, Ledger, Requests;
    RunAnnounces(maxConcurrency, ms, steps, j, id);
    FailureFreeIsHarmless(maxConcurrency, ms, steps);
    RunKeepsLedger(maxConcurrency, ms, steps);
    FailedIsLive(ms[j], id);
  }

  lemma FailedIsLive(m: Machine, id: DeliveryId)
    requires Ledger(m) && id in m.q.rows && m.q.rows[id].status.Failed? && id !in m.flights && id !in m.dropped
    ensures id in m.q.jobs && id in m.q.scheduled && m.q.scheduled[id] == m.q.jobs[id].availableAt
  {
    assert Kept(m, id);
    hide Sound, Requests;
  }
}
