/** Conservation, bounded retries and progress of the queue in runs whose failures, crashes and restarts, if any, cut no
    call short. */
module WebhookQueueLedger {
  import opened Options
  import opened WebhookConstants
  import opened WebhookQueueState
  import opened WebhookQueueRuns
  import opened WebhookQueueOrder

  predicate FailureFree(step: Step) {
    !step.FailStep? && !step.CrashStep? && !step.RestartStep?
  }

  // ---------------------------------------------------------------- where a delivery can be

  /** The row counts its log, whose entries are numbered from one. */
  predicate LogComplete(row: Row) {
    && |row.attemptLog| == row.attempts <= MAX_ATTEMPTS
    && forall i :: 0 <= i < |row.attemptLog| ==> row.attemptLog[i].attempt == i + 1
  }

  predicate InSession(q: Queue, id: DeliveryId)
    requires id in q.rows
  {
    HasPlace(Intents(q.rows), q.ordering, id)
  }

  /** Hash, schedule entry at the hash's due time and, with a session, session entry are all there. */
  predicate Traced(q: Queue, id: DeliveryId, job: Job)
    requires id in q.rows
  {
    id in q.jobs && q.jobs[id] == job && id in q.scheduled && q.scheduled[id] == job.availableAt && InSession(q, id)
  }

  predicate OutOfSession(q: Queue, id: DeliveryId)
    requires id in q.rows
  {
    (q.rows[id].intent.sessionId, id) !in q.ordering
  }

  predicate Untraced(q: Queue, id: DeliveryId)
    requires id in q.rows
  {
    id !in q.jobs && id !in q.scheduled && OutOfSession(q, id)
  }

  /** Waiting for its next attempt: traced, open, attempts left, not dead-lettered or dropped. */
  predicate Live(m: Machine, id: DeliveryId)
    requires id in m.q.rows
  {
    var row := m.q.rows[id];
    && Open(row.status) && (row.status.Pending? <==> row.attempts == 0)
    && id in m.q.jobs && Traced(m.q, id, m.q.jobs[id])
    && m.q.jobs[id].attempt == row.attempts < MAX_ATTEMPTS
    && id !in m.q.deadLetters && id !in m.dropped
  }

  predicate WasDelivered(m: Machine, id: DeliveryId)
    requires id in m.q.rows
  {
    m.q.rows[id].status.Delivered? && m.q.rows[id].attempts > 0 && id !in m.q.deadLetters && id !in m.dropped
  }

  /** The dead letter holds the delivery's content and its whole log, and "max attempts" means all five were made. */
  predicate WasDeadLettered(m: Machine, id: DeliveryId)
    requires id in m.q.rows
  {
    var row := m.q.rows[id];
    && row.status.Dead? && id in m.q.deadLetters && id !in m.dropped
    && var letter := m.q.deadLetters[id];
      && letter.merchantId == row.intent.merchantId && letter.sessionId == row.intent.sessionId
      && letter.event == row.intent.event && letter.data == row.intent.data
      && letter.attempts == row.attemptLog && letter.attempts != []
      && (letter.reason.MaxAttempts? ==> row.attempts == MAX_ATTEMPTS)
  }

  predicate WasDropped(m: Machine, id: DeliveryId)
    requires id in m.q.rows
  {
    var row := m.q.rows[id];
    && Open(row.status) && (row.status.Pending? <==> row.attempts == 0) && row.attempts < MAX_ATTEMPTS
    && id in m.dropped && id !in m.q.deadLetters
  }

  predicate Ended(m: Machine, id: DeliveryId)
    requires id in m.q.rows
  {
    WasDelivered(m, id) || WasDeadLettered(m, id) || WasDropped(m, id)
  }

  predicate AtRest(m: Machine, id: DeliveryId)
    requires id in m.q.rows
  {
    Live(m, id) || (Ended(m, id) && Untraced(m.q, id))
  }

  /** Between the recording of an outcome and its consequences: neither dead-lettered nor dropped yet, all traces
      there. */
  predicate Recorded(m: Machine, id: DeliveryId, status: DeliveryStatus, attempts: nat)
    requires id in m.q.rows
  {
    m.q.rows[id].status == status && m.q.rows[id].attempts == attempts && id !in m.q.deadLetters && id !in m.dropped
  }

  /** Where a job in progress stands, by the command it performs next. */
  predicate UnderWay(m: Machine, id: DeliveryId)
    requires id in m.q.rows && id in m.flights
  {
    var job := m.flights[id].job;
    match m.flights[id].phase
    case Calling => Live(m, id) && m.q.jobs[id] == job
    case Recording(_) => Live(m, id) && m.q.jobs[id] == job
    case Burying(reason, _) =>
      && Recorded(m, id, DeliveryStatus.Dead, job.attempt + 1) && Traced(m.q, id, job)
      && (reason.MaxAttempts? ==> job.attempt + 1 == MAX_ATTEMPTS)
    case Unscheduling => Ended(m, id) && Traced(m.q, id, job)
    case Unordering => Ended(m, id) && id in m.q.jobs && id !in m.q.scheduled && InSession(m.q, id)
    case Deleting => Ended(m, id) && id in m.q.jobs && id !in m.q.scheduled && OutOfSession(m.q, id)
    case Rewriting(next) =>
      && Recorded(m, id, Failed, next.attempt) && Traced(m.q, id, job)
      && next == job.(attempt := job.attempt + 1, availableAt := next.availableAt) && next.attempt < MAX_ATTEMPTS
    case Rescheduling =>
      && Recorded(m, id, Failed, job.attempt) && job.attempt < MAX_ATTEMPTS && job.attempt > 0
      && id in m.q.jobs && m.q.jobs[id] == job && id in m.q.scheduled && InSession(m.q, id)
    case Finishing => AtRest(m, id)
  }

  function Requests(sent: seq<Request>, id: DeliveryId): nat {
    if sent == [] then 0 else Requests(sent[..|sent| - 1], id) + (if sent[|sent| - 1].id == id then 1 else 0)
  }

  /** Each request is in the row's log, or its result is about to be recorded. */
  predicate Accounted(m: Machine, id: DeliveryId)
    requires id in m.q.rows
  {
    Requests(m.sent, id) == m.q.rows[id].attempts + (if id in m.flights && m.flights[id].phase.Recording? then 1 else 0)
  }

  ghost predicate Kept(m: Machine, id: DeliveryId)
    requires id in m.q.rows
  {
    && LogComplete(m.q.rows[id])
    && (if id in m.flights then UnderWay(m, id) else AtRest(m, id))
    && Accounted(m, id)
  }

  ghost predicate RowsFirst(m: Machine) {
    m.q.deadLetters.Keys <= m.q.rows.Keys && m.dropped <= m.q.rows.Keys
  }

  ghost predicate Ledger(m: Machine) {
    && Sound(m)
    && RowsFirst(m)
    && forall id :: id in m.q.rows ==> Kept(m, id)
  }

  // ---------------------------------------------------------------- what concerns one delivery only

  /** Everything the two states record about one delivery agrees. */
  predicate SameRecord(m: Machine, m': Machine, id: DeliveryId)
    requires id in m.q.rows && id in m'.q.rows
  {
    var entry := (m.q.rows[id].intent.sessionId, id);
    && m.q.rows[id] == m'.q.rows[id]
    && (id in m.q.jobs <==> id in m'.q.jobs) && (id in m.q.jobs ==> m.q.jobs[id] == m'.q.jobs[id])
    && (id in m.q.scheduled <==> id in m'.q.scheduled)
         && (id in m.q.scheduled ==> m.q.scheduled[id] == m'.q.scheduled[id])
    && (entry in m.q.ordering <==> entry in m'.q.ordering)
    && (id in m.q.deadLetters <==> id in m'.q.deadLetters)
    && (id in m.q.deadLetters ==> m'.q.deadLetters[id].(retriedAt := None) == m.q.deadLetters[id].(retriedAt := None))
    && (id in m.dropped <==> id in m'.dropped)
    && (id in m.flights <==> id in m'.flights) && (id in m.flights ==> m.flights[id] == m'.flights[id])
    && Requests(m.sent, id) == Requests(m'.sent, id)
  }

  lemma KeptByRecord(m: Machine, m': Machine, id: DeliveryId)
    requires id in m.q.rows && id in m'.q.rows && SameRecord(m, m', id) && Kept(m, id)
    ensures Kept(m', id)
  {
  }

  // ---------------------------------------------------------------- each step keeps the ledger

  lemma RequestsElsewhere(sent: seq<Request>, request: Request, id: DeliveryId)
    ensures Requests(sent + [request], id) == Requests(sent, id) + (if request.id == id then 1 else 0)
  {
    assert (sent + [request])[..|sent|] == sent;
  }

  lemma {:induction false} NeverRequested(sent: seq<Request>, id: DeliveryId)
    requires forall i :: 0 <= i < |sent| ==> sent[i].id != id
    ensures Requests(sent, id) == 0
  {
    if sent != [] {
      NeverRequested(sent[..|sent| - 1], id);
    }
  }

  lemma UnknownId(m: Machine, id: DeliveryId)
    requires Ledger(m) && id !in m.q.rows
    ensures id !in m.q.jobs && id !in m.flights && id !in m.q.deadLetters && id !in m.dropped
      && Requests(m.sent, id) == 0
    ensures forall sid :: (sid, id) !in m.q.ordering
  {
    assert id !in Intents(m.q.rows);
    NeverRequested(m.sent, id);
  }

  lemma NewDeliveryIsKept(m: Machine, params: EnqueueParams, id: DeliveryId, at: EnqueueClock)
    requires Ledger(m) && id !in m.q.rows
    ensures Kept(Enqueue(m, params, id, at), id)
  {
    UnknownId(m, id);
    NewDeliveryIsLive(m, params, id, at);
    hide Ledger, Requests, Live;
  }

  lemma NewDeliveryIsLive(m: Machine, params: EnqueueParams, id: DeliveryId, at: EnqueueClock)
    requires id !in m.q.deadLetters && id !in m.dropped
    ensures Live(Enqueue(m, params, id, at), id) && LogComplete(Enqueue(m, params, id, at).q.rows[id])
  {
  }

  lemma EnqueueElsewhere(m: Machine, params: EnqueueParams, id: DeliveryId, at: EnqueueClock, x: DeliveryId)
    requires id !in m.q.rows && x in m.q.rows
    ensures SameRecord(m, Enqueue(m, params, id, at), x)
  {
  }

  lemma EnqueueKeepsLedger(m: Machine, params: EnqueueParams, id: DeliveryId, at: EnqueueClock)
    requires Ledger(m) && id !in m.q.rows
    ensures Ledger(Enqueue(m, params, id, at))
  {
    hide Sound, Kept, SameRecord, Enqueue;
    var m' := Enqueue(m, params, id, at);
    EnqueueKeepsSound(m, params, id, at);
    NewDeliveryIsKept(m, params, id, at);
    EnqueueAddsRow(m, params, id, at);
    forall x | x in m'.q.rows ensures Kept(m', x) {
      if x != id {
        EnqueueElsewhere(m, params, id, at, x);
        KeptByRecord(m, m', x);
      }
    }
  }

  lemma EnqueueAddsRow(m: Machine, params: EnqueueParams, id: DeliveryId, at: EnqueueClock)
    ensures var m' := Enqueue(m, params, id, at);
      m'.q.rows.Keys == m.q.rows.Keys + {id} && m'.q.deadLetters == m.q.deadLetters && m'.dropped == m.dropped
  {
  }

  lemma RequeueElsewhere(m: Machine, dead: DeliveryId, id: DeliveryId, at: EnqueueClock, now: int, x: DeliveryId)
    requires dead in m.q.deadLetters
    ensures var m1, m' := Enqueue(m, RequeueParams(m.q.deadLetters[dead]), id, at), Requeue(m, dead, id, at, now);
      && m'.q.rows == m1.q.rows && m'.q.deadLetters.Keys == m1.q.deadLetters.Keys && m'.dropped == m1.dropped
      && (x in m1.q.rows ==> SameRecord(m1, m', x))
  {
  }

  lemma RequeueKeepsLedger(m: Machine, dead: DeliveryId, id: DeliveryId, at: EnqueueClock, now: int)
    requires Ledger(m) && id !in m.q.rows && dead in m.q.deadLetters
    ensures Ledger(Requeue(m, dead, id, at, now))
  {
    var m1, m' := Enqueue(m, RequeueParams(m.q.deadLetters[dead]), id, at), Requeue(m, dead, id, at, now);
    EnqueueKeepsLedger(m, RequeueParams(m.q.deadLetters[dead]), id, at);
    RequeueKeepsSound(m, dead, id, at, now);
    hide Sound, Kept, SameRecord, Enqueue, Requeue;
    RequeueElsewhere(m, dead, id, at, now, id);
    forall x | x in m'.q.rows ensures Kept(m', x) {
      RequeueElsewhere(m, dead, id, at, now, x);
      KeptByRecord(m1, m', x);
    }
  }

  lemma PickedIsKept(m: Machine, now: int, picked: seq<DeliveryId>, m': Machine, id: DeliveryId)
    requires id in m.q.rows && id !in m.flights && Kept(m, id)
    requires id in picked && Eligible(m.q, now, id)
    requires forall x :: x in picked ==> x in m.q.jobs
    requires m' == m.(q := Dispatch(m.q, picked, {}), flights := TakeOff(m, picked))
    ensures Kept(m', id)
  {
    assert m'.flights[id] == Flight(m.q.jobs[id], Calling);
    assert m'.q.scheduled == m.q.scheduled;
    assert Live(m, id);
  }

  lemma UnpickedIsSame(m: Machine, picked: seq<DeliveryId>, m': Machine, id: DeliveryId)
    requires id in m.q.rows && id !in picked
    requires forall x :: x in picked ==> x in m.q.jobs
    requires m' == m.(q := Dispatch(m.q, picked, {}), flights := TakeOff(m, picked))
    ensures SameRecord(m, m', id)
  {
    assert m'.q.scheduled == m.q.scheduled;
  }

  /** Every scheduled delivery has its job, so a scan finds nothing stale. */
  lemma NothingStale(m: Machine, now: int)
    requires Ledger(m)
    ensures StaleIds(m.q, now) == {}
  {
    forall id | id in m.q.scheduled && id !in m.q.processing ensures id in m.q.jobs {
      assert id in Intents(m.q.rows) && Kept(m, id);
    }
  }

  lemma PickedAreIdle(m: Machine, now: int, picked: seq<DeliveryId>)
    requires Ledger(m) && forall x :: x in picked ==> Eligible(m.q, now, x)
    ensures forall x :: x in picked ==> x in m.q.jobs && x in m.q.rows && x !in m.flights
  {
    forall x | x in picked ensures x in m.q.jobs && x in m.q.rows && x !in m.flights {
      assert Eligible(m.q, now, x);
      assert Fits(m.q.jobs[x], x, Intents(m.q.rows), m.stamps);
    }
  }

  lemma TickIsDispatch(maxConcurrency: int, m: Machine, now: int, picked: seq<DeliveryId>, m': Machine)
    requires Ledger(m) && Next(maxConcurrency, m, TickStep(now, picked), m')
    ensures m' == m ||
      (&& (forall x :: x in picked ==> Eligible(m.q, now, x) && x in m.q.jobs)
       && m' == m.(q := Dispatch(m.q, picked, {}), flights := TakeOff(m, picked)))
  {
    hide Sound, Kept;
    NothingStale(m, now);
    if maxConcurrency - m.q.active <= 0 {
      assert TakeOff(m, picked) == m.flights;
    } else {
      assert m.q.scheduled - {} == m.q.scheduled;
    }
  }

  lemma TickKeepsLedger(maxConcurrency: int, m: Machine, now: int, picked: seq<DeliveryId>, m': Machine)
    requires Ledger(m) && Next(maxConcurrency, m, TickStep(now, picked), m')
    ensures Ledger(m')
  {
    hide Sound, Kept, SameRecord, Eligible, IsTick, TakeOff, Dispatch;
    TickKeepsSound(maxConcurrency, m, now, picked, m');
    TickIsDispatch(maxConcurrency, m, now, picked, m');
    if m' != m {
      PickedAreIdle(m, now, picked);
      DispatchKeepsTables(m, picked);
      forall x | x in m'.q.rows ensures Kept(m', x) {
        if x in picked {
          PickedIsKept(m, now, picked, m', x);
        } else {
          UnpickedIsSame(m, picked, m', x);
          KeptByRecord(m, m', x);
        }
      }
    }
  }

  lemma DispatchKeepsTables(m: Machine, picked: seq<DeliveryId>)
    requires forall x :: x in picked ==> x in m.q.jobs
    ensures Dispatch(m.q, picked, {}).rows == m.q.rows && Dispatch(m.q, picked, {}).deadLetters == m.q.deadLetters
  {
  }

  /** What the invariants say about a job in progress. */
  predicate OwnJob(m: Machine, id: DeliveryId) {
    && id in m.flights && id in m.q.rows
    && m.flights[id].job.id == id && m.flights[id].job.intent == m.q.rows[id].intent
    && (m.flights[id].phase.Rewriting? ==> m.flights[id].phase.next.id == id)
    && (NO_SESSION, id) !in m.q.ordering
  }

  lemma FlightFacts(m: Machine, id: DeliveryId)
    requires Ledger(m) && id in m.flights
    ensures id in m.q.rows && OwnJob(m, id) && Kept(m, id)
  {
    assert Fits(m.flights[id].job, id, Intents(m.q.rows), m.stamps);
  }

  lemma RecordTouches(q: Queue, job: Job, result: DeliveryResult, verdict: Verdict, now: int)
    ensures var q' := Record(q, job, result, verdict, now);
      && q' == q.(rows := q'.rows) && q'.rows.Keys == q.rows.Keys
      && forall x :: x in q.rows && x != job.id ==> q'.rows[x] == q.rows[x]
  {
  }

  lemma CallElsewhere(m: Machine, id: DeliveryId, env: Env, x: DeliveryId)
    requires OwnJob(m, id) && m.flights[id].phase.Calling? && x in m.q.rows && x != id
    ensures SameRecord(m, Advance(m, id, env), x)
  {
    RequestsElsewhere(m.sent, RequestOf(m.flights[id].job), x);
  }

  lemma RecordElsewhere(m: Machine, id: DeliveryId, env: Env, x: DeliveryId)
    requires OwnJob(m, id) && m.flights[id].phase.Recording? && x in m.q.rows && x != id
    ensures x in Advance(m, id, env).q.rows && SameRecord(m, Advance(m, id, env), x)
  {
    hide Record, Judge, AfterRecord;
    var job, result := m.flights[id].job, m.flights[id].phase.result;
    RecordTouches(m.q, job, result, Judge(job, result, env.now, env.rand), env.now);
  }

  lemma UnorderElsewhere(m: Machine, id: DeliveryId, env: Env, x: DeliveryId)
    requires OwnJob(m, id) && x in m.q.rows && x != id && m.flights[id].phase.Unordering?
    ensures x in Advance(m, id, env).q.rows && SameRecord(m, Advance(m, id, env), x)
  {
    hide Requests;
  }

  lemma CleanElsewhere(m: Machine, id: DeliveryId, env: Env, x: DeliveryId)
    requires OwnJob(m, id) && x in m.q.rows && x != id
    requires m.flights[id].phase.Unscheduling? || m.flights[id].phase.Deleting?
    ensures x in Advance(m, id, env).q.rows && SameRecord(m, Advance(m, id, env), x)
  {
    hide Requests;
  }

  lemma RetryElsewhere(m: Machine, id: DeliveryId, env: Env, x: DeliveryId)
    requires OwnJob(m, id) && x in m.q.rows && x != id
    requires m.flights[id].phase.Rewriting? || m.flights[id].phase.Rescheduling?
    ensures x in Advance(m, id, env).q.rows && SameRecord(m, Advance(m, id, env), x)
  {
    hide Requests;
  }

  lemma BuryElsewhere(m: Machine, id: DeliveryId, env: Env, x: DeliveryId)
    requires OwnJob(m, id) && x in m.q.rows && x != id && m.flights[id].phase.Burying?
    ensures x in Advance(m, id, env).q.rows && SameRecord(m, Advance(m, id, env), x)
  {
    hide Requests;
  }

  lemma FinishElsewhere(m: Machine, id: DeliveryId, env: Env, x: DeliveryId)
    requires OwnJob(m, id) && x in m.q.rows && x != id && m.flights[id].phase.Finishing?
    ensures x in Advance(m, id, env).q.rows && SameRecord(m, Advance(m, id, env), x)
  {
    hide Requests;
  }

  lemma AdvanceElsewhere(m: Machine, id: DeliveryId, env: Env, x: DeliveryId)
    requires OwnJob(m, id) && x in m.q.rows && x != id
    ensures x in Advance(m, id, env).q.rows && SameRecord(m, Advance(m, id, env), x)
  {
    hide Advance, SameRecord;
    AdvanceKeepsRows(m, id, env);
    if m.flights[id].phase.Calling? {
      CallElsewhere(m, id, env, x);
    } else if m.flights[id].phase.Recording? {
      RecordElsewhere(m, id, env, x);
    } else if m.flights[id].phase.Unordering? {
      UnorderElsewhere(m, id, env, x);
    } else if m.flights[id].phase.Unscheduling? || m.flights[id].phase.Deleting? {
      CleanElsewhere(m, id, env, x);
    } else if m.flights[id].phase.Rewriting? || m.flights[id].phase.Rescheduling? {
      RetryElsewhere(m, id, env, x);
    } else if m.flights[id].phase.Burying? {
      BuryElsewhere(m, id, env, x);
    } else {
      FinishElsewhere(m, id, env, x);
    }
  }

  lemma AdvanceKeepsRows(m: Machine, id: DeliveryId, env: Env)
    requires OwnJob(m, id)
    ensures Advance(m, id, env).q.rows.Keys == m.q.rows.Keys
    ensures RowsFirst(m) ==> RowsFirst(Advance(m, id, env))
  {
    hide Record, Judge, AfterRecord, RequestOf;
    match m.flights[id].phase
    case Calling =>
    case Recording(result) =>
      RecordTouches(m.q, m.flights[id].job, result, Judge(m.flights[id].job, result, env.now, env.rand), env.now);
    case Burying(reason, lastEntry) =>
    case Unscheduling =>
    case Unordering =>
    case Deleting =>
    case Rewriting(next) =>
    case Rescheduling =>
    case Finishing =>
  }

  lemma CallIsKept(m: Machine, id: DeliveryId, env: Env)
    requires OwnJob(m, id) && Kept(m, id) && m.flights[id].phase.Calling?
    ensures Kept(Advance(m, id, env), id)
  {
    RequestsElsewhere(m.sent, RequestOf(m.flights[id].job), id);
  }

  lemma RecordIsKept(m: Machine, id: DeliveryId, env: Env)
    requires OwnJob(m, id) && Kept(m, id) && m.flights[id].phase.Recording?
    ensures id in Advance(m, id, env).q.rows && Kept(Advance(m, id, env), id)
  {
    var job, result := m.flights[id].job, m.flights[id].phase.result;
    var verdict := Judge(job, result, env.now, env.rand);
    RecordKeepsIntents(m.q, job, result, verdict, env.now);
  }

  lemma BuryIsKept(m: Machine, id: DeliveryId, env: Env)
    requires OwnJob(m, id) && Kept(m, id) && m.flights[id].phase.Burying?
    ensures Kept(Advance(m, id, env), id)
  {
  }

  lemma CleanIsKept(m: Machine, id: DeliveryId, env: Env)
    requires OwnJob(m, id) && Kept(m, id)
    requires m.flights[id].phase.Unscheduling? || m.flights[id].phase.Unordering? || m.flights[id].phase.Deleting?
    ensures Kept(Advance(m, id, env), id)
  {
  }

  lemma RetryIsKept(m: Machine, id: DeliveryId, env: Env)
    requires OwnJob(m, id) && Kept(m, id)
    requires m.flights[id].phase.Rewriting? || m.flights[id].phase.Rescheduling? || m.flights[id].phase.Finishing?
    ensures Kept(Advance(m, id, env), id)
  {
  }

  lemma AdvancedIsKept(m: Machine, id: DeliveryId, env: Env)
    requires OwnJob(m, id) && Kept(m, id)
    ensures id in Advance(m, id, env).q.rows && Kept(Advance(m, id, env), id)
  {
    hide Kept;
    AdvanceKeepsRows(m, id, env);
    hide Advance;
    match m.flights[id].phase
    case Calling => CallIsKept(m, id, env);
    case Recording(result) => RecordIsKept(m, id, env);
    case Burying(reason, lastEntry) => BuryIsKept(m, id, env);
    case Unscheduling => CleanIsKept(m, id, env);
    case Unordering => CleanIsKept(m, id, env);
    case Deleting => CleanIsKept(m, id, env);
    case Rewriting(next) => RetryIsKept(m, id, env);
    case Rescheduling => RetryIsKept(m, id, env);
    case Finishing => RetryIsKept(m, id, env);
  }

  lemma AdvanceKeepsLedger(m: Machine, id: DeliveryId, env: Env)
    requires Ledger(m) && id in m.flights
    ensures Ledger(Advance(m, id, env))
  {
    var m' := Advance(m, id, env);
    hide Sound, Kept, SameRecord, OwnJob, Advance, RowsFirst;
    FlightFacts(m, id);
    AdvanceKeepsSound(m, id, env);
    AdvancedIsKept(m, id, env);
    AdvanceKeepsRows(m, id, env);
    forall x | x in m'.q.rows ensures Kept(m', x) {
      if x != id {
        AdvanceElsewhere(m, id, env, x);
        KeptByRecord(m, m', x);
      }
    }
  }

  // ---------------------------------------------------------------- failures that leave no trace

  /** Giving up the job now leaves the delivery accounted for: its call has not made its request yet, or has done all it
      had to do. */
  predicate MayStop(m: Machine, id: DeliveryId)
    requires id in m.flights
  {
    var job := m.flights[id].job;
    match m.flights[id].phase
    case Calling => true
    case Finishing => true
    case Rescheduling => id in m.q.scheduled && m.q.scheduled[id] == job.availableAt
    case _ => false
  }

  /** An exception, a crash or a restart that cuts no call short. */
  predicate Harmless(m: Machine, step: Step) {
    match step
    case FailStep(id) => id in m.flights && MayStop(m, id)
    case CrashStep => forall id :: id in m.flights ==> MayStop(m, id)
    case RestartStep(_) => forall id :: id in m.flights ==> MayStop(m, id)
    case _ => true
  }

  lemma StoppedIsKept(m: Machine, m': Machine, id: DeliveryId)
    requires id in m.q.rows && Kept(m, id) && id in m.flights
    requires m'.q == m.q.(active := m'.q.active, processing := m'.q.processing,
                          inflightSessions := m'.q.inflightSessions)
    requires m'.sent == m.sent && m'.dropped == m.dropped && (id in m'.flights ==> m'.flights[id].phase.Finishing?)
    ensures Kept(m', id) <==> MayStop(m, id)
  {
    hide Requests;
  }

  lemma FailKeepsLedgerIff(m: Machine, id: DeliveryId)
    requires Ledger(m) && id in m.flights
    ensures Ledger(Move(m, id, m.q, m.flights[id].job, Finishing)) <==> MayStop(m, id)
  {
    hide Sound, Kept, SameRecord, MayStop;
    var m' := Move(m, id, m.q, m.flights[id].job, Finishing);
    LedgerFlight(m, id);
    FailKeepsSound(m, id);
    StoppedIsKept(m, m', id);
    forall x | x in m.q.rows && x != id ensures Kept(m', x) {
      MoveElsewhere(m, id, x);
      KeptByRecord(m, m', x);
    }
  }

  lemma LedgerFlight(m: Machine, id: DeliveryId)
    requires Ledger(m) && id in m.flights
    ensures Sound(m) && id in m.q.rows && Kept(m, id)
  {
    FlightFacts(m, id);
  }

  lemma MoveElsewhere(m: Machine, id: DeliveryId, x: DeliveryId)
    requires id in m.flights && x in m.q.rows && x != id
    ensures SameRecord(m, Move(m, id, m.q, m.flights[id].job, Finishing), x)
  {
    hide Requests;
  }

  lemma CrashElsewhere(m: Machine, x: DeliveryId)
    requires x in m.q.rows && x !in m.flights
    ensures SameRecord(m, Crashed(m), x)
  {
    hide Requests;
  }

  lemma CrashKeepsLedgerIff(m: Machine)
    requires Ledger(m)
    ensures Ledger(Crashed(m)) <==> forall id :: id in m.flights ==> MayStop(m, id)
  {
    hide Sound, Kept, SameRecord, MayStop, Crashed;
    CrashKeepsTables(m);
    LedgerIsSound(m);
    CrashKeepsSound(m);
    forall x | x in m.q.rows ensures Kept(Crashed(m), x) <==> (x in m.flights ==> MayStop(m, x)) {
      if x in m.flights {
        StoppedIsKept(m, Crashed(m), x);
      } else {
        CrashElsewhere(m, x);
        KeptByRecord(m, Crashed(m), x);
      }
    }
    forall x | x in m.flights ensures x in m.q.rows {
      LedgerFlight(m, x);
    }
  }

  lemma LedgerIsSound(m: Machine)
    requires Ledger(m)
    ensures Sound(m)
  {
  }

  lemma CrashKeepsTables(m: Machine)
    ensures var m' := Crashed(m);
      && m'.q == m.q.(active := m'.q.active, processing := m'.q.processing, inflightSessions := m'.q.inflightSessions)
      && m'.sent == m.sent && m'.dropped == m.dropped && m'.flights == map[]
  {
  }

  /** A sweep makes the dropped deliveries live again. */
  lemma RevivedIsKept(m: Machine, now: int, m': Machine, id: DeliveryId)
    requires id in m.q.rows && id in OrphanIds(m.q) && LogComplete(m.q.rows[id])
    requires WasDropped(m, id) && Requests(m.sent, id) == m.q.rows[id].attempts
    requires IsRecovery(Crashed(m).q, now, m'.q) && m' == Restarted(m, m'.q)
    ensures Kept(m', id)
  {
    hide Requests, CountersRaised;
    assert m'.q.jobs[id] == JobFromRow(id, m.q.rows[id], now);
    OrphansHavePlaces(Crashed(m).q, m'.q.ordering, id);
  }

  lemma OrphanWasDropped(m: Machine, id: DeliveryId)
    requires id in m.q.rows && id in OrphanIds(m.q) && Kept(m, id)
    ensures WasDropped(m, id) && LogComplete(m.q.rows[id]) && Requests(m.sent, id) == m.q.rows[id].attempts
    ensures id in m.flights ==> m.flights[id].phase.Finishing?
  {
    hide Requests;
  }

  /** The others it leaves as the crash does. */
  lemma UnsweptIsKept(m: Machine, now: int, m': Machine, id: DeliveryId)
    requires id in m.q.rows && id !in OrphanIds(m.q) && Kept(m, id)
    requires IsRecovery(Crashed(m).q, now, m'.q) && m' == Restarted(m, m'.q)
    ensures id in m'.q.rows && (Kept(m', id) <==> (id in m.flights ==> MayStop(m, id)))
  {
    hide Kept, SameRecord, Crashed, IsRecovery, Restarted, OrphanIds, MayStop;
    CrashKeepsTables(m);
    RestartKeepsRows(m, now, m');
    if id in m.flights {
      StoppedIsKept(m, Crashed(m), id);
    } else {
      CrashElsewhere(m, id);
      KeptByRecord(m, Crashed(m), id);
    }
    RestartElsewhere(m, now, m', id);
    if Kept(m', id) {
      KeptByRecord(m', Crashed(m), id);
    } else if Kept(Crashed(m), id) {
      KeptByRecord(Crashed(m), m', id);
    }
  }

  lemma RestartKeepsLedgerIff(m: Machine, now: int, m': Machine)
    requires Ledger(m) && IsRecovery(Crashed(m).q, now, m'.q) && m' == Restarted(m, m'.q)
    ensures Ledger(m') <==> forall id :: id in m.flights ==> MayStop(m, id)
  {
    hide Sound, Kept, MayStop, Crashed, IsRecovery, Restarted, OrphanIds;
    LedgerIsSound(m);
    RestartKeepsSound(m, now, m');
    RestartKeepsRows(m, now, m');
    forall x | x in m.q.rows ensures Kept(m', x) <==> (x in m.flights ==> MayStop(m, x)) {
      if x in OrphanIds(m.q) {
        OrphanWasDropped(m, x);
        RevivedIsKept(m, now, m', x);
        FinishingMayStop(m, x);
      } else {
        UnsweptIsKept(m, now, m', x);
      }
    }
    forall x | x in m.flights ensures x in m.q.rows {
      LedgerFlight(m, x);
    }
  }

  lemma FinishingMayStop(m: Machine, id: DeliveryId)
    ensures id in m.flights && m.flights[id].phase.Finishing? ==> MayStop(m, id)
  {
  }

  lemma RestartKeepsRows(m: Machine, now: int, m': Machine)
    requires IsRecovery(Crashed(m).q, now, m'.q) && m' == Restarted(m, m'.q)
    ensures m'.q.rows == m.q.rows && (RowsFirst(m) ==> RowsFirst(m'))
  {
    hide JobsRebuilt, ScheduleRebuilt, OrderRebuilt, CountersRaised, OrphanIds;
  }

  lemma RestartElsewhere(m: Machine, now: int, m': Machine, id: DeliveryId)
    requires id in m.q.rows && id !in OrphanIds(m.q)
    requires IsRecovery(Crashed(m).q, now, m'.q) && m' == Restarted(m, m'.q)
    ensures SameRecord(Crashed(m), m', id) && SameRecord(m', Crashed(m), id)
  {
    hide Requests, CountersRaised;
  }

  /** Of the steps from a state with every delivery accounted for, exactly the harmless ones lead to another. */
  lemma StepKeepsLedgerIff(maxConcurrency: int, m: Machine, step: Step, m': Machine)
    requires Ledger(m) && Next(maxConcurrency, m, step, m')
    ensures Ledger(m') <==> Harmless(m, step)
  {
    hide Ledger, IsTick, Advance, Enqueue, Requeue, Crashed, IsRecovery, Restarted, MayStop;
    match step
    case EnqueueStep(params, id, at) => EnqueueKeepsLedger(m, params, id, at);
    case RequeueStep(merchantId, dead, id, at, now) =>
      if MayRequeue(m.q, merchantId, dead) {
        RequeueKeepsLedger(m, dead, id, at, now);
      }
    case TickStep(now, picked) => TickKeepsLedger(maxConcurrency, m, now, picked, m');
    case AdvanceStep(id, env) => AdvanceKeepsLedger(m, id, env);
    case FailStep(id) => FailKeepsLedgerIff(m, id);
    case CrashStep => CrashKeepsLedgerIff(m);
    case RestartStep(now) => RestartKeepsLedgerIff(m, now, m');
  }

  lemma LedgerInitially()
    ensures Ledger(InitialMachine())
  {
    SoundInitially();
  }

  ghost predicate IsFailureFreeRun(maxConcurrency: int, ms: seq<Machine>, steps: seq<Step>) {
    IsRun(maxConcurrency, ms, steps) && forall i :: 0 <= i < |steps| ==> FailureFree(steps[i])
  }

  /** A run in which no call is cut short. */
  ghost predicate IsHarmlessRun(maxConcurrency: int, ms: seq<Machine>, steps: seq<Step>) {
    IsRun(maxConcurrency, ms, steps) && forall i :: 0 <= i < |steps| ==> Harmless(ms[i], steps[i])
  }

  lemma FailureFreeIsHarmless(maxConcurrency: int, ms: seq<Machine>, steps: seq<Step>)
    requires IsFailureFreeRun(maxConcurrency, ms, steps)
    ensures IsHarmlessRun(maxConcurrency, ms, steps)
  {
    hide Next, MayStop;
  }

  lemma {:induction false} RunKeepsLedger(maxConcurrency: int, ms: seq<Machine>, steps: seq<Step>)
    requires IsHarmlessRun(maxConcurrency, ms, steps)
    ensures forall i :: 0 <= i < |ms| ==> Ledger(ms[i])
  {
    hide Ledger, Next, Harmless;
    if steps == [] {
      LedgerInitially();
    } else {
      var n := |steps| - 1;
      RunKeepsLedger(maxConcurrency, ms[..n + 1], steps[..n]);
      assert Ledger(ms[..n + 1][n]);
      StepKeepsLedgerIff(maxConcurrency, ms[n], steps[n], ms[n + 1]);
      assert forall i :: 0 <= i <= n ==> ms[i] == ms[..n + 1][i];
    }
  }

  // ---------------------------------------------------------------- conservation

  /** Exactly one of four things holds of a delivery no worker is busy with. */
  predicate OneFate(m: Machine, id: DeliveryId)
    requires id in m.q.rows
  {
    || (Live(m, id) && !WasDelivered(m, id) && !WasDeadLettered(m, id) && !WasDropped(m, id))
    || (!Live(m, id) && Untraced(m.q, id) && WasDelivered(m, id) && !WasDeadLettered(m, id) && !WasDropped(m, id))
    || (!Live(m, id) && Untraced(m.q, id) && !WasDelivered(m, id) && WasDeadLettered(m, id) && !WasDropped(m, id))
    || (!Live(m, id) && Untraced(m.q, id) && !WasDelivered(m, id) && !WasDeadLettered(m, id) && WasDropped(m, id))
  }

  /** Delivered, dead-lettered or dropped, and only one of these. */
  predicate OneEnd(m: Machine, id: DeliveryId)
    requires id in m.q.rows
  {
    && !Live(m, id)
    && (|| (WasDelivered(m, id) && !WasDeadLettered(m, id) && !WasDropped(m, id))
        || (!WasDelivered(m, id) && WasDeadLettered(m, id) && !WasDropped(m, id))
        || (!WasDelivered(m, id) && !WasDeadLettered(m, id) && WasDropped(m, id)))
  }

  /** What holds of a delivery in progress, by the command its worker performs next: live with the worker's own copy
      until its outcome is recorded; then on its way to the dead letters, with one end and fewer and fewer traces, or
      failed with its next attempt being written; and again with one fate when only the worker's books are left. */
  predicate FateInProgress(m: Machine, id: DeliveryId)
    requires id in m.q.rows && id in m.flights
  {
    var q, job, row := m.q, m.flights[id].job, m.q.rows[id];
    match m.flights[id].phase
    case Calling => OneFate(m, id) && Live(m, id) && q.jobs[id] == job
    case Recording(_) => OneFate(m, id) && Live(m, id) && q.jobs[id] == job
    case Burying(_, _) => row.status.Dead? && row.attempts == job.attempt + 1 && id !in q.deadLetters
      && id !in m.dropped && Traced(q, id, job)
    case Unscheduling => OneEnd(m, id) && Traced(q, id, job)
    case Unordering => OneEnd(m, id) && id in q.jobs && id !in q.scheduled && InSession(q, id)
    case Deleting => OneEnd(m, id) && id in q.jobs && id !in q.scheduled && OutOfSession(q, id)
    case Rewriting(next) =>
      && row.status.Failed? && row.attempts == next.attempt == job.attempt + 1 < MAX_ATTEMPTS
      && id !in q.deadLetters && id !in m.dropped && Traced(q, id, job)
    case Rescheduling =>
      && row.status.Failed? && 0 < row.attempts == job.attempt < MAX_ATTEMPTS
      && id !in q.deadLetters && id !in m.dropped && id in q.jobs && q.jobs[id] == job && id in q.scheduled
           && InSession(q, id)
    case Finishing => OneFate(m, id)
  }

  /** Conservation: in every state of every run that cuts no call short each enqueued delivery no worker is busy with is
      live and fully indexed, or delivered, or dead with its one dead letter holding the whole log, or dropped, and only
      one of these; one in progress stands where its next command says; its row counts its log; and the log has exactly
      the requests made for it, but for one whose result is about to be recorded. */
  lemma DeliveriesAreConserved(maxConcurrency: int, ms: seq<Machine>, steps: seq<Step>, i: nat, id: DeliveryId)
    requires IsHarmlessRun(maxConcurrency, ms, steps) && i < |ms| && id in ms[i].q.rows
    ensures if id in ms[i].flights then FateInProgress(ms[i], id) else OneFate(ms[i], id)
    ensures LogComplete(ms[i].q.rows[id])
    ensures Requests(ms[i].sent, id)
      == |ms[i].q.rows[id].attemptLog| + if id in ms[i].flights && ms[i].flights[id].phase.Recording? then 1 else 0
  {
    RunKeepsLedger(maxConcurrency, ms, steps);
    hide *;
    KeptHasOneFate(ms[i], id);
  }

  lemma RestHasOneFate(m: Machine, id: DeliveryId)
    requires id in m.q.rows
    ensures AtRest(m, id) ==> OneFate(m, id)
    ensures Ended(m, id) ==> OneEnd(m, id)
  {
    hide Traced, Untraced;
  }

  lemma UnderWayHasFate(m: Machine, id: DeliveryId)
    requires id in m.q.rows && id in m.flights && UnderWay(m, id)
    ensures FateInProgress(m, id)
  {
    RestHasOneFate(m, id);
    hide OneFate, OneEnd, Ended, Traced, Untraced, InSession, OutOfSession;
  }

  lemma KeptHasOneFate(m: Machine, id: DeliveryId)
    requires Ledger(m) && id in m.q.rows
    ensures if id in m.flights then FateInProgress(m, id) else OneFate(m, id)
    ensures LogComplete(m.q.rows[id])
    ensures Requests(m.sent, id) == |m.q.rows[id].attemptLog| + if id in m.flights && m.flights[id].phase.Recording?
      then 1 else 0
  {
    assert Kept(m, id);
    hide Ledger, Requests, UnderWay, FateInProgress, AtRest, OneFate;
    RestHasOneFate(m, id);
    if id in m.flights {
      UnderWayHasFate(m, id);
    }
  }

  /** Nothing is in an index or a dead letter without having been enqueued. */
  lemma NothingUnknown(maxConcurrency: int, ms: seq<Machine>, steps: seq<Step>, i: nat, id: DeliveryId)
    requires IsHarmlessRun(maxConcurrency, ms, steps) && i < |ms|
    requires id in ms[i].q.jobs || id in ms[i].q.scheduled || id in ms[i].q.deadLetters || id in ms[i].flights
      || exists sid :: (sid, id) in ms[i].q.ordering
    ensures id in ms[i].q.rows
  {
    RunKeepsLedger(maxConcurrency, ms, steps);
    assert Ledger(ms[i]);
    assert id in Intents(ms[i].q.rows) || id in ms[i].q.deadLetters;
  }

  // ---------------------------------------------------------------- bounded retries

  function IdsOf(sent: seq<Request>): seq<DeliveryId> {
    seq(|sent|, i requires 0 <= i < |sent| => sent[i].id)
  }

  lemma {:induction false} RequestsCounts(sent: seq<Request>, id: DeliveryId)
    ensures multiset(IdsOf(sent))[id] == Requests(sent, id)
  {
    if sent != [] {
      RequestsCounts(sent[..|sent| - 1], id);
      assert IdsOf(sent) == IdsOf(sent[..|sent| - 1]) + [sent[|sent| - 1].id];
    }
  }

  lemma CountSplits(ids: multiset<DeliveryId>, id: DeliveryId)
    ensures |ids| == |ids[id := 0]| + ids[id]
  {
    assert ids == ids[id := 0][id := ids[id]];
  }

  lemma {:induction false} BoundedMultiset(ids: multiset<DeliveryId>, universe: set<DeliveryId>, bound: nat)
    requires forall id :: id in ids ==> id in universe
    requires forall id :: id in universe ==> ids[id] <= bound
    ensures |ids| <= |universe| * bound
  {
    if universe == {} {
      assert ids == multiset{};
    } else {
      var id :| id in universe;
      var others := universe - {id};
      BoundedMultiset(ids[id := 0], others, bound);
      CountSplits(ids, id);
      OneMore(|others|, bound);
      assert |universe| == |others| + 1;
    }
  }

  lemma SentIsBounded(sent: seq<Request>, ids: set<DeliveryId>, bound: nat)
    requires forall k :: 0 <= k < |sent| ==> sent[k].id in ids
    requires forall id :: id in ids ==> Requests(sent, id) <= bound
    ensures |sent| <= |ids| * bound
  {
    hide Requests;
    var all := IdsOf(sent);
    forall id | id in ids ensures multiset(all)[id] <= bound {
      RequestsCounts(sent, id);
    }
    assert forall id :: id in multiset(all) ==> id in all;
    BoundedMultiset(multiset(all), ids, bound);
  }

  /** No delivery is requested more than five times, and n deliveries cost at most 5n requests. */
  lemma RetriesAreBounded(maxConcurrency: int, ms: seq<Machine>, steps: seq<Step>, i: nat)
    requires IsHarmlessRun(maxConcurrency, ms, steps) && i < |ms|
    ensures forall id :: id in ms[i].q.rows ==> Requests(ms[i].sent, id) <= MAX_ATTEMPTS
    ensures |ms[i].sent| <= MAX_ATTEMPTS * |ms[i].q.rows|
  {
    RunKeepsLedger(maxConcurrency, ms, steps);
    var m := ms[i];
    hide *;
    forall id | id in m.q.rows.Keys ensures Requests(m.sent, id) <= MAX_ATTEMPTS {
      RetryBound(m, id);
    }
    forall k | 0 <= k < |m.sent| ensures m.sent[k].id in m.q.rows.Keys {
      RequestedIsKnown(m, k);
    }
    SentIsBounded(m.sent, m.q.rows.Keys, MAX_ATTEMPTS);
  }

  lemma RetryBound(m: Machine, id: DeliveryId)
    requires Ledger(m) && id in m.q.rows
    ensures Requests(m.sent, id) <= MAX_ATTEMPTS
  {
    assert Kept(m, id);
  }

  lemma RequestedIsKnown(m: Machine, k: nat)
    requires Ledger(m) && k < |m.sent|
    ensures m.sent[k].id in m.q.rows
  {
    assert m.sent[k].id in Intents(m.q.rows);
  }

  // ---------------------------------------------------------------- progress

  lemma {:induction false} SomeHead(ordering: map<(SessionId, DeliveryId), nat>, sid: SessionId, among: set<DeliveryId>)
      returns (head: DeliveryId)
    requires among != {} && forall id :: id in among ==> (sid, id) in ordering
    ensures head in among && forall id :: id in among ==> RanksBefore(ordering, sid, head, id)
  {
    var id :| id in among;
    if among == {id} {
      head := id;
    } else {
      var best := SomeHead(ordering, sid, among - {id});
      head := if RanksBefore(ordering, sid, id, best) then id else best;
      forall x | x in among ensures RanksBefore(ordering, sid, head, x) {
        assert x == id || x in among - {id};
      }
    }
  }

  lemma SessionHasHead(ordering: map<(SessionId, DeliveryId), nat>, sid: SessionId, id: DeliveryId)
      returns (head: DeliveryId)
    requires (sid, id) in ordering
    ensures IsHead(ordering, sid, head)
  {
    var among := set k | k in ordering.Keys && k.0 == sid :: k.1;
    assert (sid, id).1 in among;
    head := SomeHead(ordering, sid, among);
    forall k | k in ordering.Keys && k.0 == sid ensures RanksBefore(ordering, sid, head, k.1) {
      assert k.1 in among;
    }
  }

  /** With nothing in progress every entry of a session belongs to a live job of it. */
  lemma EntryIsReady(m: Machine, sid: SessionId, id: DeliveryId)
    requires Ledger(m) && m.flights == map[] && (sid, id) in m.q.ordering
    ensures id in m.q.scheduled && id in m.q.jobs && m.q.jobs[id].intent.sessionId == sid
  {
    assert Kept(m, id);
    assert Fits(m.q.jobs[id], id, Intents(m.q.rows), m.stamps);
  }

  /** So the head of a live session is itself free to run. */
  lemma SomethingEligible(m: Machine, now: int, id: DeliveryId) returns (eligible: DeliveryId)
    requires Ledger(m) && m.flights == map[]
    requires id in m.q.rows && Live(m, id)
    requires forall x :: x in m.q.scheduled ==> m.q.scheduled[x] <= now
    ensures eligible in EligibleIds(m.q, now)
  {
    var sid := m.q.rows[id].intent.sessionId;
    assert m.q.inflightSessions == {} && m.q.processing == {};
    assert Fits(m.q.jobs[id], id, Intents(m.q.rows), m.stamps);
    hide Ledger, IsHead;
    eligible := id;
    if sid != NO_SESSION {
      eligible := SessionHasHead(m.q.ordering, sid, id);
      HeadHasEntry(m.q.ordering, sid, eligible);
      EntryIsReady(m, sid, eligible);
    }
  }

  lemma HeadHasEntry(ordering: map<(SessionId, DeliveryId), nat>, sid: SessionId, id: DeliveryId)
    requires IsHead(ordering, sid, id)
    ensures (sid, id) in ordering
  {
  }

  lemma LiveIsPicked(maxConcurrency: int, m: Machine, now: int, picked: seq<DeliveryId>, q': Queue, id: DeliveryId)
    requires Ledger(m) && m.flights == map[] && maxConcurrency >= 1 && id in m.q.rows && Live(m, id)
    requires forall x :: x in m.q.scheduled ==> m.q.scheduled[x] <= now
    requires IsTick(m.q, maxConcurrency, now, picked, q')
    ensures picked != []
  {
    assert m.q.active == 0;
    hide Ledger, Live, Eligible, StaleIds, Dispatch;
    var e := SomethingEligible(m, now, id);
    assert EligibleIds(m.q, now) != {};
  }

  /** Never deadlocked: in every state of every run that cuts no call short, with nothing in progress, room for a job,
      and the clock past every due time, a scheduling pass dispatches at least one job unless no delivery is live any
      more. */
  lemma QueueNeverDeadlocks(maxConcurrency: int, ms: seq<Machine>, steps: seq<Step>, i: nat, now: int,
        picked: seq<DeliveryId>, q': Queue)
    requires IsHarmlessRun(maxConcurrency, ms, steps) && i < |ms|
    requires maxConcurrency >= 1 && ms[i].flights == map[]
    requires forall x :: x in ms[i].q.scheduled ==> ms[i].q.scheduled[x] <= now
    requires IsTick(ms[i].q, maxConcurrency, now, picked, q')
    ensures picked == [] <==> forall id :: id in ms[i].q.rows ==> !Live(ms[i], id)
  {
    RunKeepsLedger(maxConcurrency, ms, steps);
    var m := ms[i];
    assert Ledger(m);
    if picked != [] {
      PickedIsLive(maxConcurrency, m, now, picked, q');
    }
    hide *;
    forall id | picked == [] && id in m.q.rows ensures !Live(m, id) {
      if Live(m, id) {
        LiveIsPicked(maxConcurrency, m, now, picked, q', id);
      }
    }
  }

  lemma PickedIsLive(maxConcurrency: int, m: Machine, now: int, picked: seq<DeliveryId>, q': Queue)
    requires Ledger(m) && IsTick(m.q, maxConcurrency, now, picked, q') && picked != []
    ensures picked[0] in m.q.rows && Live(m, picked[0])
  {
    assert picked[0] in picked;
    hide Ledger;
    EligibleIsLive(m, now, picked[0]);
  }

  lemma EligibleIsLive(m: Machine, now: int, id: DeliveryId)
    requires Ledger(m) && Eligible(m.q, now, id)
    ensures id in m.q.rows && Live(m, id)
  {
    assert Fits(m.q.jobs[id], id, Intents(m.q.rows), m.stamps);
    assert Kept(m, id);
  }
}
