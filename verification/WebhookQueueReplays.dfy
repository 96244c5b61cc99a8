/** How often a delivery is requested in runs with failures, crashes and restarts: at most five times, and once more for
    each of its calls that is cut short. */
module WebhookQueueReplays {
  import opened Options
  import opened WebhookConstants
  import opened WebhookQueueState
  import opened WebhookQueueRuns
  import opened WebhookQueueOrder
  import opened WebhookQueueLedger

  // ---------------------------------------------------------------- what every run keeps of one delivery

  /** Whatever fails: a scheduled delivery has its hash, and so has one in progress, at the worker's own attempt, until
      it is deleted; its schedule entry goes first, its place before the hash. */
  predicate Anchored(m: Machine, id: DeliveryId)
    requires id in m.q.rows
  {
    && (id in m.q.scheduled ==> id in m.q.jobs)
    && (id in m.flights ==>
          var phase := m.flights[id].phase;
          && (!phase.Finishing? || (m.q.rows[id].intent.sessionId, id) in m.q.ordering ==> id in m.q.jobs)
          && (!phase.Finishing? ==> (id in m.q.scheduled <==> !phase.Unordering? && !phase.Deleting?))
          && (phase.Deleting? ==> (m.q.rows[id].intent.sessionId, id) !in m.q.ordering)
          && (HoldsPlace(phase) && id in m.q.jobs ==> m.q.jobs[id].attempt == m.flights[id].job.attempt))
  }

  /** The row is never behind the hash, and ahead of it once closed; neither counts past five. */
  predicate Budgeted(m: Machine, id: DeliveryId)
    requires id in m.q.rows
  {
    var row := m.q.rows[id];
    && row.attempts <= MAX_ATTEMPTS && (Open(row.status) ==> row.attempts < MAX_ATTEMPTS)
    && (id in m.q.jobs ==>
          && m.q.jobs[id].attempt <= row.attempts && m.q.jobs[id].attempt < MAX_ATTEMPTS
          && (!Open(row.status) ==> m.q.jobs[id].attempt < row.attempts))
    && (id in m.flights ==>
          match m.flights[id].phase
          case Burying(_, _) => !Open(row.status)
          case Rewriting(next) => Open(row.status) && next.attempt == m.flights[id].job.attempt + 1 == row.attempts
          case _ => true)
  }

  predicate Sane(m: Machine, id: DeliveryId)
    requires id in m.q.rows
  {
    Anchored(m, id) && Budgeted(m, id)
  }

  ghost predicate AllSane(m: Machine) {
    Sound(m) && forall id :: id in m.q.rows ==> Sane(m, id)
  }

  /** A call has made its request, and the hash does not count it yet. */
  predicate Unsettled(m: Machine, id: DeliveryId)
    requires id in m.q.rows
  {
    id in m.flights &&
    match m.flights[id].phase
    case Recording(_) => true
    case Burying(_, _) => true
    case Rewriting(_) => true
    case Unscheduling => !Open(m.q.rows[id].status)
    case Unordering => !Open(m.q.rows[id].status)
    case Deleting => !Open(m.q.rows[id].status)
    case _ => false
  }

  /** The attempts counted: by the hash, or the row once it is gone, and the one not settled yet. */
  function Counted(m: Machine, id: DeliveryId): nat
    requires id in m.q.rows
  {
    (if id in m.q.jobs then m.q.jobs[id].attempt else m.q.rows[id].attempts) + if Unsettled(m, id) then 1 else 0
  }

  /** The step cuts the delivery's call short after its request: an exception, a death of the worker, or a dead letter
      that is there already. */
  predicate CutsShort(m: Machine, step: Step, id: DeliveryId) {
    && id in m.q.rows && Unsettled(m, id)
    && match step
       case FailStep(x) => x == id
       case CrashStep => true
       case RestartStep(_) => true
       case AdvanceStep(x, _) => x == id && m.flights[id].phase.Burying? && id in m.q.deadLetters
       case _ => false
  }

  function Cuts(ms: seq<Machine>, steps: seq<Step>, n: nat, id: DeliveryId): nat
    requires n <= |steps| < |ms|
  {
    if n == 0 then 0 else Cuts(ms, steps, n - 1, id) + if CutsShort(ms[n - 1], steps[n - 1], id) then 1 else 0
  }

  lemma CountedIsBounded(m: Machine, id: DeliveryId)
    requires id in m.q.rows && Sane(m, id)
    ensures Counted(m, id) <= MAX_ATTEMPTS
  {
  }

  lemma SaneByRecord(m: Machine, m': Machine, id: DeliveryId)
    requires id in m.q.rows && id in m'.q.rows && SameRecord(m, m', id)
    ensures Sane(m, id) ==> Sane(m', id)
    ensures Counted(m', id) == Counted(m, id) && Requests(m'.sent, id) == Requests(m.sent, id)
  {
    hide Requests;
  }

  /** What one step may do to one delivery. */
  ghost predicate Spends(m: Machine, step: Step, m': Machine, id: DeliveryId) {
    id in m'.q.rows ==>
      && Sane(m', id)
      && Requests(m'.sent, id) - Counted(m', id)
           <= (if id in m.q.rows then Requests(m.sent, id) - Counted(m, id) else 0)
              + if CutsShort(m, step, id) then 1 else 0
  }

  lemma SameSpends(m: Machine, step: Step, m': Machine, id: DeliveryId)
    requires id in m.q.rows && Sane(m, id) && (id in m'.q.rows ==> SameRecord(m, m', id))
    ensures Spends(m, step, m', id)
  {
    if id in m'.q.rows {
      hide Sane, SameRecord, Counted, Requests, CutsShort;
      SaneByRecord(m, m', id);
    }
  }

  // ---------------------------------------------------------------- enqueues

  lemma NewIsSane(m: Machine, params: EnqueueParams, id: DeliveryId, at: EnqueueClock)
    requires id !in m.flights
    ensures var m' := Enqueue(m, params, id, at); Sane(m', id) && Counted(m', id) == 0 && m'.sent == m.sent
  {
  }

  lemma UnknownToAll(m: Machine, id: DeliveryId)
    requires Sound(m) && id !in m.q.rows
    ensures id !in m.flights && Requests(m.sent, id) == 0
  {
    assert id !in Intents(m.q.rows);
    NeverRequested(m.sent, id);
  }

  lemma EnqueueSpends(m: Machine, params: EnqueueParams, id: DeliveryId, at: EnqueueClock, step: Step, x: DeliveryId)
    requires AllSane(m) && id !in m.q.rows
    ensures Spends(m, step, Enqueue(m, params, id, at), x)
  {
    hide Sound, Sane, Counted, Requests, SameRecord, CutsShort, Enqueue;
    EnqueueAddsRow(m, params, id, at);
    if x == id {
      UnknownToAll(m, id);
      NewIsSane(m, params, id, at);
    } else if x in m.q.rows {
      EnqueueElsewhere(m, params, id, at, x);
      SameSpends(m, step, Enqueue(m, params, id, at), x);
    }
  }

  lemma RequeueSpends(m: Machine, dead: DeliveryId, id: DeliveryId, at: EnqueueClock, now: int, step: Step,
        x: DeliveryId)
    requires AllSane(m) && id !in m.q.rows && dead in m.q.deadLetters
    ensures Spends(m, step, Requeue(m, dead, id, at, now), x)
  {
    hide Sound, Sane, Counted, Requests, SameRecord, CutsShort, Enqueue, Requeue;
    var params := RequeueParams(m.q.deadLetters[dead]);
    EnqueueSpends(m, params, id, at, step, x);
    RequeueElsewhere(m, dead, id, at, now, x);
    if x in Enqueue(m, params, id, at).q.rows {
      SaneByRecord(Enqueue(m, params, id, at), Requeue(m, dead, id, at, now), x);
    }
  }

  // ---------------------------------------------------------------- passes

  /** No pass ever finds a stale entry. */
  lemma NeverStale(m: Machine, now: int)
    requires AllSane(m)
    ensures StaleIds(m.q, now) == {}
  {
    hide Budgeted;
    forall id | id in m.q.scheduled ensures id in m.q.jobs {
      assert id in Intents(m.q.rows) && Sane(m, id);
    }
  }

  lemma TickDispatches(maxConcurrency: int, m: Machine, now: int, picked: seq<DeliveryId>, m': Machine)
    requires AllSane(m) && Next(maxConcurrency, m, TickStep(now, picked), m')
    ensures m' == m ||
      (&& (forall x :: x in picked ==> Eligible(m.q, now, x) && x in m.q.jobs && x !in m.flights)
       && m' == m.(q := Dispatch(m.q, picked, {}), flights := TakeOff(m, picked)))
  {
    hide Sane, Eligible, Dispatch, Numbered, Ranked, FaithfulJobs, FaithfulFlights, Scheduled, ClosedInTurn, InFront,
      CleanedInTurn, SentFaithfully;
    NeverStale(m, now);
    if maxConcurrency - m.q.active <= 0 {
      assert TakeOff(m, picked) == m.flights;
    } else {
      PickedAreFree(m, now, picked);
    }
  }

  lemma PickedAreFree(m: Machine, now: int, picked: seq<DeliveryId>)
    requires m.q.processing == m.flights.Keys && forall x :: x in picked ==> Eligible(m.q, now, x)
    ensures forall x :: x in picked ==> x in m.q.jobs && x !in m.flights
  {
    forall x | x in picked ensures x in m.q.jobs && x !in m.flights {
      assert Eligible(m.q, now, x);
    }
  }

  lemma PickedSpends(m: Machine, picked: seq<DeliveryId>, step: Step, m': Machine, id: DeliveryId)
    requires id in m.q.rows && Sane(m, id) && id in picked && id !in m.flights && id in m.q.scheduled
    requires forall x :: x in picked ==> x in m.q.jobs
    requires m' == m.(q := Dispatch(m.q, picked, {}), flights := TakeOff(m, picked))
    ensures Spends(m, step, m', id)
  {
    hide Requests;
    assert m'.flights[id] == Flight(m.q.jobs[id], Calling);
    assert m'.q.scheduled == m.q.scheduled;
  }

  lemma TickSpends(maxConcurrency: int, m: Machine, now: int, picked: seq<DeliveryId>, m': Machine, id: DeliveryId)
    requires AllSane(m) && Next(maxConcurrency, m, TickStep(now, picked), m')
    ensures Spends(m, TickStep(now, picked), m', id)
  {
    hide Sound, Sane, Counted, Requests, SameRecord, CutsShort, Spends, Next, TakeOff;
    TickDispatches(maxConcurrency, m, now, picked, m');
    if id !in m.q.rows {
      NoRow(m, TickStep(now, picked), m', id);
    } else if m' == m {
      SaneUnchanged(m, TickStep(now, picked), id);
    } else if id in picked {
      PickedSpends(m, picked, TickStep(now, picked), m', id);
    } else {
      UnpickedIsSame(m, picked, m', id);
      SameSpends(m, TickStep(now, picked), m', id);
    }
  }

  lemma NoRow(m: Machine, step: Step, m': Machine, id: DeliveryId)
    requires id !in m'.q.rows
    ensures Spends(m, step, m', id)
  {
  }

  lemma SaneUnchanged(m: Machine, step: Step, id: DeliveryId)
    requires id in m.q.rows && Sane(m, id)
    ensures Spends(m, step, m, id)
  {
    hide Sane, Counted, Requests, CutsShort;
  }

  // ---------------------------------------------------------------- commands

  lemma OwnJobOf(m: Machine, id: DeliveryId)
    requires Sound(m) && id in m.flights
    ensures OwnJob(m, id)
  {
    assert Fits(m.flights[id].job, id, Intents(m.q.rows), m.stamps);
  }

  lemma CallSpends(m: Machine, id: DeliveryId, env: Env)
    requires OwnJob(m, id) && Sane(m, id) && m.flights[id].phase.Calling?
    ensures Spends(m, AdvanceStep(id, env), Advance(m, id, env), id)
  {
    RequestsElsewhere(m.sent, RequestOf(m.flights[id].job), id);
    hide Requests;
  }

  lemma RecordSpends(m: Machine, id: DeliveryId, env: Env)
    requires OwnJob(m, id) && Sane(m, id) && m.flights[id].phase.Recording?
    ensures Spends(m, AdvanceStep(id, env), Advance(m, id, env), id)
  {
    hide Requests;
    var job, result := m.flights[id].job, m.flights[id].phase.result;
    RecordKeepsIntents(m.q, job, result, Judge(job, result, env.now, env.rand), env.now);
  }

  lemma CleanSpends(m: Machine, id: DeliveryId, env: Env)
    requires OwnJob(m, id) && Sane(m, id)
    requires m.flights[id].phase.Burying? || m.flights[id].phase.Unscheduling? || m.flights[id].phase.Unordering?
      || m.flights[id].phase.Deleting?
    ensures Spends(m, AdvanceStep(id, env), Advance(m, id, env), id)
  {
    hide Requests, LetterFor;
  }

  lemma RetrySpends(m: Machine, id: DeliveryId, env: Env)
    requires OwnJob(m, id) && Sane(m, id)
    requires m.flights[id].phase.Rewriting? || m.flights[id].phase.Rescheduling? || m.flights[id].phase.Finishing?
    ensures Spends(m, AdvanceStep(id, env), Advance(m, id, env), id)
  {
    hide Requests;
  }

  lemma OwnSpends(m: Machine, id: DeliveryId, env: Env)
    requires OwnJob(m, id) && Sane(m, id)
    ensures Spends(m, AdvanceStep(id, env), Advance(m, id, env), id)
  {
    hide Sane, Advance, Spends;
    match m.flights[id].phase
    case Calling => CallSpends(m, id, env);
    case Recording(result) => RecordSpends(m, id, env);
    case Burying(reason, lastEntry) => CleanSpends(m, id, env);
    case Unscheduling => CleanSpends(m, id, env);
    case Unordering => CleanSpends(m, id, env);
    case Deleting => CleanSpends(m, id, env);
    case Rewriting(next) => RetrySpends(m, id, env);
    case Rescheduling => RetrySpends(m, id, env);
    case Finishing => RetrySpends(m, id, env);
  }

  lemma AdvanceSpends(m: Machine, id: DeliveryId, env: Env, x: DeliveryId)
    requires AllSane(m) && id in m.flights
    ensures Spends(m, AdvanceStep(id, env), Advance(m, id, env), x)
  {
    hide Sound, Sane, Advance, Spends, OwnJob, SameRecord;
    OwnJobOf(m, id);
    KnownInFlight(m, id);
    AdvanceKeepsRows(m, id, env);
    if x !in m.q.rows {
      NoRow(m, AdvanceStep(id, env), Advance(m, id, env), x);
    } else if x == id {
      OwnSpends(m, id, env);
    } else {
      AdvanceElsewhere(m, id, env, x);
      SameSpends(m, AdvanceStep(id, env), Advance(m, id, env), x);
    }
  }

  lemma KnownInFlight(m: Machine, id: DeliveryId)
    requires OwnJob(m, id)
    ensures id in m.q.rows && id in m.flights && m.flights[id].job.id == id
  {
  }

  // ---------------------------------------------------------------- failures

  lemma FailSpends(m: Machine, id: DeliveryId, x: DeliveryId)
    requires AllSane(m) && id in m.flights
    ensures Spends(m, FailStep(id), Move(m, id, m.q, m.flights[id].job, Finishing), x)
  {
    hide Sound, Requests;
    if x in m.q.rows {
      assert Sane(m, x);
    }
  }

  lemma CrashSpends(m: Machine, x: DeliveryId)
    requires AllSane(m)
    ensures Spends(m, CrashStep, Crashed(m), x)
  {
    hide Sound, Requests;
    if x in m.q.rows {
      assert Sane(m, x);
    }
  }

  lemma RestartSpends(m: Machine, now: int, m': Machine, x: DeliveryId)
    requires AllSane(m) && IsRecovery(Crashed(m).q, now, m'.q) && m' == Restarted(m, m'.q)
    ensures Spends(m, RestartStep(now), m', x)
  {
    hide Sound, Requests, OrderRebuilt, CountersRaised;
    if x in m.q.rows {
      assert Sane(m, x);
    }
  }

  // ---------------------------------------------------------------- every step

  lemma StepSpends(maxConcurrency: int, m: Machine, step: Step, m': Machine, id: DeliveryId)
    requires AllSane(m) && Next(maxConcurrency, m, step, m')
    ensures Spends(m, step, m', id)
  {
    hide AllSane, Spends, IsTick, Advance, Enqueue, Requeue, IsRecovery, Restarted, Crashed;
    match step
    case EnqueueStep(params, x, at) => EnqueueSpends(m, params, x, at, step, id);
    case RequeueStep(merchantId, dead, x, at, now) =>
      if MayRequeue(m.q, merchantId, dead) {
        RequeueSpends(m, dead, x, at, now, step, id);
      } else {
        IdleSpends(m, step, id);
      }
    case TickStep(now, picked) => TickSpends(maxConcurrency, m, now, picked, m', id);
    case AdvanceStep(x, env) => AdvanceSpends(m, x, env, id);
    case FailStep(x) => FailSpends(m, x, id);
    case CrashStep => CrashSpends(m, id);
    case RestartStep(now) => RestartSpends(m, now, m', id);
  }

  lemma IdleSpends(m: Machine, step: Step, id: DeliveryId)
    requires AllSane(m)
    ensures Spends(m, step, m, id)
  {
    hide Sound, Sane, Spends;
    if id in m.q.rows {
      SaneUnchanged(m, step, id);
    } else {
      NoRow(m, step, m, id);
    }
  }

  lemma StepStaysSane(maxConcurrency: int, m: Machine, step: Step, m': Machine)
    requires AllSane(m) && Next(maxConcurrency, m, step, m')
    ensures AllSane(m')
  {
    hide Sound, Sane, Next, Counted, Requests, CutsShort;
    StepKeepsSound(maxConcurrency, m, step, m');
    forall id | id in m'.q.rows ensures Sane(m', id) {
      StepSpends(maxConcurrency, m, step, m', id);
    }
  }

  lemma {:induction false} RunIsSane(maxConcurrency: int, ms: seq<Machine>, steps: seq<Step>)
    requires IsRun(maxConcurrency, ms, steps)
    ensures forall i :: 0 <= i < |ms| ==> AllSane(ms[i])
  {
    hide AllSane, Next;
    if steps == [] {
      SaneInitially();
    } else {
      var n := |steps| - 1;
      RunIsSane(maxConcurrency, ms[..n + 1], steps[..n]);
      assert AllSane(ms[..n + 1][n]);
      StepStaysSane(maxConcurrency, ms[n], steps[n], ms[n + 1]);
      assert forall i :: 0 <= i <= n ==> ms[i] == ms[..n + 1][i];
    }
  }

  lemma SaneInitially()
    ensures AllSane(InitialMachine())
  {
    SoundInitially();
  }

  lemma StepIsSane(maxConcurrency: int, ms: seq<Machine>, steps: seq<Step>, i: nat)
    requires IsRun(maxConcurrency, ms, steps) && i < |steps|
    ensures |ms| == |steps| + 1 && AllSane(ms[i]) && Next(maxConcurrency, ms[i], steps[i], ms[i + 1])
  {
    hide Next, AllSane;
    RunIsSane(maxConcurrency, ms, steps);
  }

  // ---------------------------------------------------------------- main result

  lemma {:induction false} RequestsAreCounted(maxConcurrency: int, ms: seq<Machine>, steps: seq<Step>, n: nat,
        id: DeliveryId)
    requires IsRun(maxConcurrency, ms, steps) && n <= |steps| < |ms| && id in ms[n].q.rows
    ensures Requests(ms[n].sent, id) <= Counted(ms[n], id) + Cuts(ms, steps, n, id)
  {
    hide IsRun, Next, AllSane, Requests, Counted, CutsShort, Sane;
    if n == 0 {
      NothingAtFirst(maxConcurrency, ms, steps);
    } else {
      StepIsSane(maxConcurrency, ms, steps, n - 1);
      StepSpends(maxConcurrency, ms[n - 1], steps[n - 1], ms[n], id);
      if id in ms[n - 1].q.rows {
        RequestsAreCounted(maxConcurrency, ms, steps, n - 1, id);
      }
    }
  }

  lemma NothingAtFirst(maxConcurrency: int, ms: seq<Machine>, steps: seq<Step>)
    requires IsRun(maxConcurrency, ms, steps)
    ensures ms[0].q.rows == map[]
  {
    hide Next;
  }

  /** In every run, whatever fails: a delivery is requested at most five times, and once more for each of its calls that
      was cut short after its request. */
  lemma RequestedFiveTimesAndPerCut(maxConcurrency: int, ms: seq<Machine>, steps: seq<Step>, n: nat, id: DeliveryId)
    requires IsRun(maxConcurrency, ms, steps) && n <= |steps| < |ms| && id in ms[n].q.rows
    ensures Requests(ms[n].sent, id) <= MAX_ATTEMPTS + Cuts(ms, steps, n, id)
  {
    hide *;
    RequestsAreCounted(maxConcurrency, ms, steps, n, id);
    SaneAt(maxConcurrency, ms, steps, n, id);
    CountedIsBounded(ms[n], id);
  }

  lemma SaneAt(maxConcurrency: int, ms: seq<Machine>, steps: seq<Step>, n: nat, id: DeliveryId)
    requires IsRun(maxConcurrency, ms, steps) && n < |ms| && id in ms[n].q.rows
    ensures Sane(ms[n], id)
  {
    hide IsRun, Sound, Sane;
    RunIsSane(maxConcurrency, ms, steps);
    assert AllSane(ms[n]);
  }
}
