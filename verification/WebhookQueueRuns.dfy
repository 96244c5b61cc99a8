/** Runs of the queue: enqueues and scheduling passes as single steps, and every job in progress advancing by one
    database or Redis command at a time, in any interleaving, with failures and crashes at any command. */
module WebhookQueueRuns {
  import opened Options
  import opened WebhookConstants
  import opened WebhookQueueState

  /** What is sent to the merchant: id, timestamp, event, sequence and payload are functions of these fields. */
  datatype Request = Request(id: DeliveryId, intent: Intent, timestamp: int)

  /** The command a job in progress performs next. */
  datatype Phase =
    | Calling
    | Recording(result: DeliveryResult)
    | Burying(reason: Reason, lastEntry: Attempt)
    | Unscheduling
    | Unordering
    | Deleting
    | Rewriting(next: Job)
    | Rescheduling
    | Finishing

  datatype Flight = Flight(job: Job, phase: Phase)

  /** The queue, the local state of the jobs in progress, and the history: the timestamp given to each delivery, every
      HTTP request made, and the deliveries dropped for want of a target. */
  datatype Machine = Machine(
    q: Queue, flights: map<DeliveryId, Flight>, stamps: map<DeliveryId, int>, sent: seq<Request>,
      dropped: set<DeliveryId>)

  /** What the environment answers at a command: merchant row, HTTP result, clock and jitter. */
  datatype Env = Env(hasTarget: bool, result: DeliveryResult, now: int, rand: real)

  datatype Step =
    | EnqueueStep(params: EnqueueParams, id: DeliveryId, at: EnqueueClock)
    | RequeueStep(merchantId: MerchantId, dead: DeliveryId, id: DeliveryId, at: EnqueueClock, now: int)
    | TickStep(now: int, picked: seq<DeliveryId>)
    | AdvanceStep(id: DeliveryId, env: Env)
    | FailStep(id: DeliveryId)
    | CrashStep
    | RestartStep(now: int)

  function InitialMachine(): Machine {
    Machine(EmptyQueue(), map[], map[], [], {})
  }

  function RequestOf(job: Job): Request {
    Request(job.id, job.intent, job.timestamp)
  }

  function Move(m: Machine, id: DeliveryId, q: Queue, job: Job, phase: Phase): Machine {
    m.(q := q, flights := m.flights[id := Flight(job, phase)])
  }

  /** One command of `process`. */
  function Advance(m: Machine, id: DeliveryId, env: Env): Machine
    requires id in m.flights
  {
    var job := m.flights[id].job;
    match m.flights[id].phase
    case Calling =>
      if env.hasTarget then Move(m, id, m.q, job, Recording(env.result)).(sent := m.sent + [RequestOf(job)])
      else Move(m, id, m.q, job, Unscheduling).(dropped := m.dropped + {id})
    case Recording(result) =>
      var verdict := Judge(job, result, env.now, env.rand);
      Move(m, id, Record(m.q, job, result, verdict, env.now), job, AfterRecord(job, result, verdict, env.now))
    case Burying(reason, lastEntry) =>
      if job.id in m.q.deadLetters then Move(m, id, m.q, job, Finishing)
      else Move(m, id, Bury(m.q, job, reason, lastEntry), job, Unscheduling)
    case Unscheduling => Move(m, id, Unschedule(m.q, job.id), job, Unordering)
    case Unordering => Move(m, id, Unorder(m.q, job), job, Deleting)
    case Deleting => Move(m, id, DeleteJob(m.q, job.id), job, Finishing)
    case Rewriting(next) => Move(m, id, WriteJob(m.q, next), next, Rescheduling)
    case Rescheduling => Move(m, id, Schedule(m.q, job.id, job.availableAt), job, Finishing)
    case Finishing => m.(q := Release(m.q, job), flights := m.flights - {id})
  }

  function AfterRecord(job: Job, result: DeliveryResult, verdict: Verdict, now: int): Phase {
    match verdict
    case Deliver => Unscheduling
    case Condemn(reason) => Burying(reason, EntryFor(job, result, now))
    case Again(at) => Rewriting(job.(attempt := job.attempt + 1, availableAt := at))
  }

  function TakeOff(m: Machine, picked: seq<DeliveryId>): map<DeliveryId, Flight>
    requires forall id :: id in picked ==> id in m.q.jobs
  {
    m.flights + (map id | id in picked :: Flight(m.q.jobs[id], Calling))
  }

  /** The worker dies, or restarts with a sweep that fails at once; the stores keep what they have. */
  function Crashed(m: Machine): Machine {
    m.(q := m.q.(active := 0, processing := {}, inflightSessions := {}), flights := map[])
  }

  /** The worker restarts and sweeps before its first pass: a revived delivery is signed with the creation time of its
      row, and a dropped one is open again. */
  function Restarted(m: Machine, swept: Queue): Machine {
    m.(q := swept, flights := map[], dropped := m.dropped - OrphanIds(m.q),
       stamps := m.stamps + (map id | id in OrphanIds(m.q) :: m.q.rows[id].createdAt))
  }

  function Enqueue(m: Machine, params: EnqueueParams, id: DeliveryId, at: EnqueueClock): Machine {
    m.(q := Enqueued(m.q, params, id, at), stamps := m.stamps[id := at.timestamp])
  }

  function Requeue(m: Machine, dead: DeliveryId, id: DeliveryId, at: EnqueueClock, now: int): Machine
    requires dead in m.q.deadLetters
  {
    m.(q := Requeued(m.q, dead, id, at, now), stamps := m.stamps[id := at.timestamp])
  }

  ghost predicate Next(maxConcurrency: int, m: Machine, step: Step, m': Machine) {
    match step
    case EnqueueStep(params, id, at) =>
      id !in m.q.rows && m' == Enqueue(m, params, id, at)
    case RequeueStep(merchantId, dead, id, at, now) =>
      && id !in m.q.rows
      && m' == if MayRequeue(m.q, merchantId, dead) then Requeue(m, dead, id, at, now) else m
    case TickStep(now, picked) =>
      && IsTick(m.q, maxConcurrency, now, picked, m'.q)
      && (forall id :: id in picked ==> id in m.q.jobs)
      && m' == m.(q := m'.q, flights := TakeOff(m, picked))
    case AdvanceStep(id, env) => id in m.flights && m' == Advance(m, id, env)
    case FailStep(id) => id in m.flights && m' == Move(m, id, m.q, m.flights[id].job, Finishing)
    case CrashStep => m' == Crashed(m)
    case RestartStep(now) => IsRecovery(Crashed(m).q, now, m'.q) && m' == Restarted(m, m'.q)
  }

  ghost predicate IsRun(maxConcurrency: int, ms: seq<Machine>, steps: seq<Step>) {
    && |ms| == |steps| + 1
    && ms[0] == InitialMachine()
    && forall i :: 0 <= i < |steps| ==> Next(maxConcurrency, ms[i], steps[i], ms[i + 1])
  }

  // ---------------------------------------------------------------- commands and methods agree

  /** A job in progress advancing alone until it is released: at most seven commands. */
  function Alone(m: Machine, id: DeliveryId, env: Env, commands: nat): Machine
    decreases commands
  {
    if commands == 0 || id !in m.flights then m else Alone(Advance(m, id, env), id, env, commands - 1)
  }

  lemma CleanAlone(m: Machine, id: DeliveryId, env: Env)
    requires id in m.flights && m.flights[id].phase.Unscheduling? && m.flights[id].job.id == id
    ensures var m' := Alone(m, id, env, 4);
      id !in m'.flights && m'.q == Release(Cleanup(m.q, m.flights[id].job), m.flights[id].job) && m'.sent == m.sent
  {
    var m1 := Advance(m, id, env);
    var m2 := Advance(m1, id, env);
    var m3 := Advance(m2, id, env);
    assert m3.flights[id].phase == Finishing && m3.q == Cleanup(m.q, m.flights[id].job);
    assert Alone(m, id, env, 4) == Alone(m1, id, env, 3) == Alone(m2, id, env, 2) == Alone(m3, id, env, 1);
  }

  lemma RetryAlone(m: Machine, id: DeliveryId, env: Env)
    requires id in m.flights && m.flights[id].phase.Rewriting? && m.flights[id].phase.next.id == id
    requires m.flights[id].phase.next.intent == m.flights[id].job.intent && m.flights[id].job.id == id
    ensures var next, m' := m.flights[id].phase.next, Alone(m, id, env, 3);
      id !in m'.flights && m'.q == Release(Schedule(WriteJob(m.q, next), id, next.availableAt), m.flights[id].job)
        && m'.sent == m.sent
  {
    var m1 := Advance(m, id, env);
    var m2 := Advance(m1, id, env);
    assert Alone(m, id, env, 3) == Alone(m1, id, env, 2) == Alone(m2, id, env, 1);
  }

  lemma BuryAlone(m: Machine, id: DeliveryId, env: Env)
    requires id in m.flights && m.flights[id].phase.Burying? && m.flights[id].job.id == id
    ensures var job, phase := m.flights[id].job, m.flights[id].phase;
      var m' := Alone(m, id, env, 5);
      && id !in m'.flights && m'.sent == m.sent
      && m'.q == if id in m.q.deadLetters then Release(m.q, job)
                 else Release(Cleanup(Bury(m.q, job, phase.reason, phase.lastEntry), job), job)
  {
    var m1 := Advance(m, id, env);
    assert Alone(m, id, env, 5) == Alone(m1, id, env, 4);
    if id in m.q.deadLetters {
      var m2 := Advance(m1, id, env);
      assert Alone(m1, id, env, 4) == Alone(m2, id, env, 3) == m2;
    } else {
      CleanAlone(m1, id, env);
    }
  }

  lemma {:induction false} MoreCommands(m: Machine, id: DeliveryId, env: Env, n: nat, k: nat)
    requires id !in Alone(m, id, env, n).flights
    ensures Alone(m, id, env, n + k) == Alone(m, id, env, n)
    decreases n
  {
    if n > 0 && id in m.flights {
      MoreCommands(Advance(m, id, env), id, env, n - 1, k);
    }
  }

  /** Left undisturbed, the commands of a job have together the effect of the whole `process` method, and one request at
      most. */
  lemma CommandsMakeProcess(m: Machine, id: DeliveryId, env: Env)
    requires id in m.flights && m.flights[id].phase.Calling? && m.flights[id].job.id == id
    ensures var job, m' := m.flights[id].job, Alone(m, id, env, 7);
      && id !in m'.flights
      && m'.q == Processed(m.q, job, env.hasTarget, env.result, env.now, env.rand)
      && m'.sent == if env.hasTarget then m.sent + [RequestOf(job)] else m.sent
  {
    var job := m.flights[id].job;
    var m1 := Advance(m, id, env);
    assert Alone(m, id, env, 7) == Alone(m1, id, env, 6);
    if !env.hasTarget {
      CleanAlone(m1, id, env);
      MoreCommands(m1, id, env, 4, 2);
    } else {
      var m2 := Advance(m1, id, env);
      assert Alone(m1, id, env, 6) == Alone(m2, id, env, 5);
      match Judge(job, env.result, env.now, env.rand)
      case Deliver =>
        CleanAlone(m2, id, env);
        MoreCommands(m2, id, env, 4, 1);
      case Condemn(reason) =>
        BuryAlone(m2, id, env);
      case Again(at) =>
        RetryAlone(m2, id, env);
        MoreCommands(m2, id, env, 3, 2);
    }
  }

  /** A pass never picks two jobs of one session, never a session in flight, and nothing before its due time. */
  lemma TickRespectsSessions(q: Queue, maxConcurrency: int, now: int, picked: seq<DeliveryId>, q': Queue, a: DeliveryId,
        b: DeliveryId)
    requires IsTick(q, maxConcurrency, now, picked, q') && a in picked && b in picked
    ensures q.scheduled[a] <= now && q.jobs[a].intent.sessionId !in q.inflightSessions - {NO_SESSION}
    ensures a != b ==>
      q.jobs[a].intent.sessionId != q.jobs[b].intent.sessionId || q.jobs[a].intent.sessionId == NO_SESSION
  {
    var sid := q.jobs[a].intent.sessionId;
    assert Eligible(q, now, a) && Eligible(q, now, b);
    if sid != NO_SESSION && q.jobs[b].intent.sessionId == sid {
      assert (sid, a) in q.ordering.Keys && (sid, b) in q.ordering.Keys;
      assert RanksBefore(q.ordering, sid, a, (sid, b).1) && RanksBefore(q.ordering, sid, b, (sid, a).1);
    }
  }
}
