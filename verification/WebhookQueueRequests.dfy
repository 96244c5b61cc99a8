/** The order and the repetition of the requests made for a session, and what a restart can do to them. */
module WebhookQueueRequests {
  import opened Options
  import opened WebhookConstants
  import opened WebhookQueueState
  import opened WebhookQueueRuns
  import opened WebhookQueueOrder

  // ---------------------------------------------------------------- requests in turn

  /** What waits in a session is never behind what was sent for it, and requests of a session go up in sequence. */
  ghost predicate SentInTurn(ordering: map<(SessionId, DeliveryId), nat>, sent: seq<Request>) {
    && (forall i, sid, id :: 0 <= i < |sent| && (sid, id) in ordering && sid == sent[i].intent.sessionId ==>
          sent[i].intent.sequence <= ordering[(sid, id)])
    && (forall i, j :: 0 <= i < j < |sent| && sent[i].intent.sessionId == sent[j].intent.sessionId != NO_SESSION ==>
          sent[i].intent.sequence <= sent[j].intent.sequence)
  }

  lemma EnqueueLeavesTurn(intents: map<DeliveryId, Intent>, q: Queue, sent: seq<Request>,
                          params: EnqueueParams, id: DeliveryId, at: EnqueueClock)
    requires Numbered(intents, q.seqs) && SentFaithfully(intents, sent) && SentInTurn(q.ordering, sent)
    ensures SentInTurn(Enqueued(q, params, id, at).ordering, sent)
  {
  }

  /** The head of a session is sent next: nothing waiting is behind it, and nothing sent is ahead of it. */
  lemma SendHead(intents: map<DeliveryId, Intent>, ordering: map<(SessionId, DeliveryId), nat>, sent: seq<Request>,
        job: Job)
    requires Ranked(intents, ordering) && SentInTurn(ordering, sent)
    requires job.id in intents && intents[job.id] == job.intent
    requires job.intent.sessionId != NO_SESSION ==> IsHead(ordering, job.intent.sessionId, job.id)
    ensures SentInTurn(ordering, sent + [RequestOf(job)])
  {
    var sid := job.intent.sessionId;
    forall id | (sid, id) in ordering && sid != NO_SESSION ensures job.intent.sequence <= ordering[(sid, id)] {
      HeadIsLowest(ordering, sid, job.id, id);
    }
  }

  lemma FewerWaiting(ordering: map<(SessionId, DeliveryId), nat>, sent: seq<Request>,
        gone: set<(SessionId, DeliveryId)>)
    requires SentInTurn(ordering, sent)
    ensures SentInTurn(ordering - gone, sent)
  {
  }

  /** What one command does to the waiting entries and the requests. */
  lemma AdvanceSends(m: Machine, id: DeliveryId, env: Env)
    requires id in m.flights
    ensures var m', flight := Advance(m, id, env), m.flights[id];
      && (m'.sent == if flight.phase.Calling? && env.hasTarget then m.sent + [RequestOf(flight.job)] else m.sent)
      && (m'.q.ordering == if flight.phase.Unordering? then Unorder(m.q, flight.job).ordering else m.q.ordering)
  {
    if m.flights[id].phase.Recording? {
      var job, result := m.flights[id].job, m.flights[id].phase.result;
      RecordKeepsIntents(m.q, job, result, Judge(job, result, env.now, env.rand), env.now);
      hide Record, Judge, AfterRecord;
    } else {
      var job, phase := m.flights[id].job, m.flights[id].phase;
      OrderUntouched(m.q, job, if phase.Rewriting? then phase.next else job);
      hide RequestOf, LetterFor, Release, Unorder, Unschedule, DeleteJob, WriteJob, Schedule;
    }
  }

  lemma OrderUntouched(q: Queue, job: Job, next: Job)
    ensures Release(q, job).ordering == Unschedule(q, job.id).ordering == DeleteJob(q, job.id).ordering == q.ordering
    ensures WriteJob(q, next).ordering == Schedule(q, job.id, job.availableAt).ordering == q.ordering
  {
  }

  lemma AdvanceKeepsTurn(m: Machine, id: DeliveryId, env: Env)
    requires Sound(m) && SentInTurn(m.q.ordering, m.sent) && id in m.flights
    ensures SentInTurn(Advance(m, id, env).q.ordering, Advance(m, id, env).sent)
  {
    AdvanceSends(m, id, env);
    if m.flights[id].phase.Calling? {
      FrontOf(m, id);
      hide Advance, SentInTurn;
      SendHead(Intents(m.q.rows), m.q.ordering, m.sent, m.flights[id].job);
    } else {
      hide Advance, SentInTurn;
      FewerWaiting(m.q.ordering, m.sent, {(m.flights[id].job.intent.sessionId, m.flights[id].job.id)});
    }
  }

  /** No orphan the sweep would revive comes before something already requested in its session. */
  ghost predicate Orderly(m: Machine) {
    forall x, i ::
      (x in OrphanIds(m.q) && 0 <= i < |m.sent|
       && m.sent[i].intent.sessionId == m.q.rows[x].intent.sessionId != NO_SESSION) ==>
        m.sent[i].intent.sequence <= m.q.rows[x].intent.sequence
  }

  /** After a restart the requests made are still in turn with what waits if and only if no orphan came before one of
      them. */
  lemma RestartKeepsTurnIff(m: Machine, now: int, swept: Queue)
    requires SentInTurn(m.q.ordering, m.sent) && IsRecovery(Crashed(m).q, now, swept)
    ensures SentInTurn(swept.ordering, m.sent) <==> Orderly(m)
  {
    assert OrphanIds(Crashed(m).q) == OrphanIds(m.q);
    if SentInTurn(swept.ordering, m.sent) {
      RevivedInTurn(m, now, swept);
    }
    if Orderly(m) {
      OrderlyRevival(m, now, swept);
    }
  }

  lemma RevivedInTurn(m: Machine, now: int, swept: Queue)
    requires IsRecovery(Crashed(m).q, now, swept) && SentInTurn(swept.ordering, m.sent)
    ensures Orderly(m)
  {
    var q := Crashed(m).q;
    forall x, i | x in OrphanIds(q) && 0 <= i < |m.sent|
      && m.sent[i].intent.sessionId == q.rows[x].intent.sessionId != NO_SESSION
      ensures m.sent[i].intent.sequence <= q.rows[x].intent.sequence
    {
      var k := (q.rows[x].intent.sessionId, x);
      assert RevivedEntry(q, OrphanIds(q), k);
      hide JobsRebuilt, ScheduleRebuilt, CountersRaised;
      assert swept.ordering[k] == q.rows[x].intent.sequence;
    }
  }

  lemma OrderlyRevival(m: Machine, now: int, swept: Queue)
    requires SentInTurn(m.q.ordering, m.sent) && IsRecovery(Crashed(m).q, now, swept) && Orderly(m)
    ensures SentInTurn(swept.ordering, m.sent)
  {
    var q := Crashed(m).q;
    hide JobsRebuilt, ScheduleRebuilt, CountersRaised;
    forall i, sid, id | 0 <= i < |m.sent| && (sid, id) in swept.ordering && sid == m.sent[i].intent.sessionId
      ensures m.sent[i].intent.sequence <= swept.ordering[(sid, id)]
    {
      if RevivedEntry(q, OrphanIds(q), (sid, id)) {
        assert id in OrphanIds(m.q);
      }
    }
  }

  ghost predicate InTurn(m: Machine) {
    Sound(m) && SentInTurn(m.q.ordering, m.sent)
  }

  lemma EnqueueKeepsTurn(m: Machine, params: EnqueueParams, id: DeliveryId, at: EnqueueClock)
    requires InTurn(m)
    ensures SentInTurn(Enqueued(m.q, params, id, at).ordering, m.sent)
  {
    EnqueueLeavesTurn(Intents(m.q.rows), m.q, m.sent, params, id, at);
  }

  lemma StepKeepsTurn(maxConcurrency: int, m: Machine, step: Step, m': Machine)
    requires InTurn(m) && Next(maxConcurrency, m, step, m')
    requires step.RestartStep? ==> Orderly(m)
    ensures SentInTurn(m'.q.ordering, m'.sent)
  {
    hide Sound, SentInTurn, Advance, EligibleIds, Eligible, Enqueued, IsRecovery, Orderly, Restarted;
    match step
    case EnqueueStep(params, id, at) => EnqueueKeepsTurn(m, params, id, at);
    case RequeueStep(merchantId, dead, id, at, now) =>
      if MayRequeue(m.q, merchantId, dead) {
        EnqueueKeepsTurn(m, RequeueParams(m.q.deadLetters[dead]), id, at);
      }
    case TickStep(now, picked) =>
    case AdvanceStep(id, env) => AdvanceKeepsTurn(m, id, env);
    case FailStep(id) =>
    case CrashStep =>
    case RestartStep(now) =>
      RestartedKeeps(m, now, m'.q);
      RestartKeepsTurnIff(m, now, m'.q);
  }

  lemma NextKeepsTurn(maxConcurrency: int, m: Machine, step: Step, m': Machine)
    requires InTurn(m) && Next(maxConcurrency, m, step, m')
    requires step.RestartStep? ==> Orderly(m)
    ensures InTurn(m')
  {
    StepKeepsTurn(maxConcurrency, m, step, m');
    hide Sound, Next, SentInTurn, Orderly;
    StepKeepsSound(maxConcurrency, m, step, m');
  }

  lemma InTurnInitially()
    ensures InTurn(InitialMachine()) && Stamped(InitialMachine())
  {
    SoundInitially();
    hide Sound;
  }

  /** Every restart of the run, if any, finds its orphans in order. */
  ghost predicate RestartsOrderly(ms: seq<Machine>, steps: seq<Step>)
    requires |ms| == |steps| + 1
  {
    forall i :: 0 <= i < |steps| && steps[i].RestartStep? ==> Orderly(ms[i])
  }

  lemma {:induction false} RunIsInTurn(maxConcurrency: int, ms: seq<Machine>, steps: seq<Step>)
    requires IsRun(maxConcurrency, ms, steps) && RestartsOrderly(ms, steps)
    ensures forall i :: 0 <= i < |ms| ==> InTurn(ms[i])
  {
    hide Next, InTurn, Orderly, InitialMachine;
    if steps == [] {
      InTurnInitially();
    } else {
      var n := |steps| - 1;
      assert forall i :: 0 <= i <= n ==> ms[i] == ms[..n + 1][i];
      RunIsInTurn(maxConcurrency, ms[..n + 1], steps[..n]);
      assert InTurn(ms[..n + 1][n]);
      NextKeepsTurn(maxConcurrency, ms[n], steps[n], ms[n + 1]);
    }
  }

  // ---------------------------------------------------------------- requests repeated

  /** Every request carries the timestamp its delivery's job has now. */
  ghost predicate SentStamped(stamps: map<DeliveryId, int>, sent: seq<Request>) {
    forall i :: 0 <= i < |sent| ==> sent[i].id in stamps && sent[i].timestamp == stamps[sent[i].id]
  }

  /** Each orphan that was requested before had been signed with the creation time of its row. */
  ghost predicate SignedAlike(m: Machine) {
    forall i :: 0 <= i < |m.sent| && m.sent[i].id in OrphanIds(m.q) ==>
      m.sent[i].timestamp == m.q.rows[m.sent[i].id].createdAt
  }

  lemma RestartKeepsStampsIff(m: Machine, swept: Queue)
    requires SentStamped(m.stamps, m.sent)
    ensures SentStamped(Restarted(m, swept).stamps, m.sent) <==> SignedAlike(m)
  {
    var stamps := Restarted(m, swept).stamps;
    assert forall id :: id in OrphanIds(m.q) ==> id in stamps && stamps[id] == m.q.rows[id].createdAt;
    assert forall id :: id in m.stamps && id !in OrphanIds(m.q) ==> id in stamps && stamps[id] == m.stamps[id];
  }

  lemma AdvanceKeepsStamps(m: Machine, id: DeliveryId, env: Env)
    requires Sound(m) && SentStamped(m.stamps, m.sent) && id in m.flights
    ensures SentStamped(Advance(m, id, env).stamps, Advance(m, id, env).sent)
  {
    assert Fits(m.flights[id].job, id, Intents(m.q.rows), m.stamps);
    AdvanceSends(m, id, env);
    assert Advance(m, id, env).stamps == m.stamps by {
      hide Record, Judge, AfterRecord, LetterFor;
    }
    hide Advance, Sound;
  }

  lemma StampAnother(m: Machine, id: DeliveryId, at: int)
    requires Sound(m) && SentStamped(m.stamps, m.sent) && id !in m.q.rows
    ensures SentStamped(m.stamps[id := at], m.sent)
  {
    assert forall i :: 0 <= i < |m.sent| ==> m.sent[i].id in Intents(m.q.rows);
  }

  ghost predicate Stamped(m: Machine) {
    Sound(m) && SentStamped(m.stamps, m.sent)
  }

  lemma StepKeepsStamps(maxConcurrency: int, m: Machine, step: Step, m': Machine)
    requires Stamped(m) && Next(maxConcurrency, m, step, m')
    requires step.RestartStep? ==> SignedAlike(m)
    ensures SentStamped(m'.stamps, m'.sent)
  {
    hide Sound, SentStamped, Advance, IsTick, Enqueued, Requeued, IsRecovery, SignedAlike, Restarted;
    match step
    case EnqueueStep(params, id, at) => StampAnother(m, id, at.timestamp);
    case RequeueStep(merchantId, dead, id, at, now) => StampAnother(m, id, at.timestamp);
    case TickStep(now, picked) =>
    case AdvanceStep(id, env) => AdvanceKeepsStamps(m, id, env);
    case FailStep(id) =>
    case CrashStep =>
    case RestartStep(now) =>
      RestartedKeeps(m, now, m'.q);
      RestartKeepsStampsIff(m, m'.q);
  }

  lemma NextKeepsStamps(maxConcurrency: int, m: Machine, step: Step, m': Machine)
    requires Stamped(m) && Next(maxConcurrency, m, step, m')
    requires step.RestartStep? ==> SignedAlike(m)
    ensures Stamped(m')
  {
    StepKeepsStamps(maxConcurrency, m, step, m');
    hide Sound, Next, SentStamped, SignedAlike;
    StepKeepsSound(maxConcurrency, m, step, m');
  }

  ghost predicate RestartsSignAlike(ms: seq<Machine>, steps: seq<Step>)
    requires |ms| == |steps| + 1
  {
    forall i :: 0 <= i < |steps| && steps[i].RestartStep? ==> SignedAlike(ms[i])
  }

  lemma {:induction false} RunIsStamped(maxConcurrency: int, ms: seq<Machine>, steps: seq<Step>)
    requires IsRun(maxConcurrency, ms, steps) && RestartsSignAlike(ms, steps)
    ensures forall i :: 0 <= i < |ms| ==> Stamped(ms[i])
  {
    hide Next, Stamped, SignedAlike, InitialMachine;
    if steps == [] {
      InTurnInitially();
    } else {
      var n := |steps| - 1;
      assert forall i :: 0 <= i <= n ==> ms[i] == ms[..n + 1][i];
      RunIsStamped(maxConcurrency, ms[..n + 1], steps[..n]);
      assert Stamped(ms[..n + 1][n]);
      NextKeepsStamps(maxConcurrency, ms[n], steps[n], ms[n + 1]);
    }
  }

  // ---------------------------------------------------------------- main results

  /** In every run, with failures, crashes and restarts at any command, whose restarts find no orphan behind a request
      of its session: the sequence numbers requested for one session never decrease. */
  lemma RequestsInOrder(maxConcurrency: int, ms: seq<Machine>, steps: seq<Step>, i: nat, j: nat)
    requires IsRun(maxConcurrency, ms, steps) && RestartsOrderly(ms, steps)
    requires i < j < |ms[|steps|].sent|
    ensures var a, b := ms[|steps|].sent[i], ms[|steps|].sent[j];
      a.intent.sessionId == b.intent.sessionId != NO_SESSION ==> a.intent.sequence <= b.intent.sequence
  {
    RunIsInTurn(maxConcurrency, ms, steps);
    assert InTurn(ms[|steps|]);
  }

  /** All requests of one delivery carry the same content, and the same timestamp too when each restart's orphans that
      were requested before had been signed with the creation times of their rows. */
  lemma RequestsRepeat(maxConcurrency: int, ms: seq<Machine>, steps: seq<Step>, i: nat, j: nat)
    requires IsRun(maxConcurrency, ms, steps)
    requires i < j < |ms[|steps|].sent| && ms[|steps|].sent[i].id == ms[|steps|].sent[j].id
    ensures ms[|steps|].sent[i].intent == ms[|steps|].sent[j].intent
    ensures RestartsSignAlike(ms, steps) ==> ms[|steps|].sent[i] == ms[|steps|].sent[j]
  {
    RunIsSound(maxConcurrency, ms, steps);
    assert Sound(ms[|steps|]);
    if RestartsSignAlike(ms, steps) {
      RunIsStamped(maxConcurrency, ms, steps);
      assert Stamped(ms[|steps|]);
    }
  }
}
