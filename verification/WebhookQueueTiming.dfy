/** Runs of the queue against a clock: when responses, dispatches and bookkeeping are prompt, a session is finished
    within a fixed time per delivery. */
module WebhookQueueTiming {
  import opened Options
  import opened WebhookConstants
  import opened WebhookQueueState
  import opened WebhookQueueRuns
  import opened WebhookQueueOrder
  import opened WebhookQueueRequests
  import opened WebhookQueueLedger
  import opened WebhookQueueClock

  /** A machine and a clock; when each job in progress was picked, and when each session last gave up its worker. */
  datatype Clocked = Clocked(m: Machine, clock: int, picked: map<DeliveryId, int>, freed: map<SessionId, int>)

  datatype TimedStep = Do(step: Step) | Elapse(to: int)

  /** Whatever a step reads of the clock is the present time. */
  predicate AtClock(step: Step, clock: int) {
    match step
    case EnqueueStep(params, id, at) => at.now == clock
    case RequeueStep(merchantId, dead, id, at, now) => at.now == clock
    case TickStep(now, picked) => now == clock
    case AdvanceStep(id, env) => env.now == clock && IsRandom(env.rand)
    case FailStep(id) => true
    case CrashStep => true
    case RestartStep(now) => true
  }

  predicate Frees(m: Machine, step: Step) {
    step.AdvanceStep? && step.id in m.flights && m.flights[step.id].phase.Finishing?
      && m.flights[step.id].job.intent.sessionId != NO_SESSION
  }

  function Noted(c: Clocked, step: Step, m': Machine): Clocked {
    Clocked(m', c.clock,
            if step.TickStep? then c.picked + (map id | id in step.picked :: c.clock) else c.picked,
            if Frees(c.m, step) then c.freed[c.m.flights[step.id].job.intent.sessionId := c.clock] else c.freed)
  }

  /** When the head of an idle session may first be requested: due, and the session free. */
  function ReadyAt(c: Clocked, sid: SessionId, head: DeliveryId): int
    requires head in c.m.q.scheduled
  {
    if sid in c.freed then Max(c.m.q.scheduled[head], c.freed[sid]) else c.m.q.scheduled[head]
  }

  predicate AwaitsResponse(phase: Phase) {
    phase.Calling? || phase.Recording?
  }

  /** Time passes only while every job in progress awaits its response, none longer than the timeout, and no idle
      session's head stays ready longer than the latency. */
  ghost predicate MayElapse(latencyMs: nat, c: Clocked, to: int) {
    && c.clock < to
    && (forall id :: id in c.m.flights ==>
          AwaitsResponse(c.m.flights[id].phase) && id in c.picked && to <= c.picked[id] + DELIVERY_TIMEOUT_MS)
    && (forall sid, h ::
          (&& sid != NO_SESSION && sid !in c.m.q.inflightSessions
           && h in c.m.q.scheduled && IsHead(c.m.q.ordering, sid, h)) ==>
            to <= ReadyAt(c, sid, h) + latencyMs)
  }

  ghost predicate TimedNext(maxConcurrency: int, latencyMs: nat, c: Clocked, ts: TimedStep, c': Clocked) {
    match ts
    case Do(step) =>
      FailureFree(step) && AtClock(step, c.clock) && Next(maxConcurrency, c.m, step, c'.m) && c' == Noted(c, step, c'.m)
    case Elapse(to) => MayElapse(latencyMs, c, to) && c' == c.(clock := to)
  }

  ghost predicate IsTimedRun(maxConcurrency: int, latencyMs: nat, cs: seq<Clocked>, steps: seq<TimedStep>) {
    && |cs| == |steps| + 1
    && (exists clock :: cs[0] == Clocked(InitialMachine(), clock, map[], map[]))
    && forall i :: 0 <= i < |steps| ==> TimedNext(maxConcurrency, latencyMs, cs[i], steps[i], cs[i + 1])
  }

  // ---------------------------------------------------------------- the stage of a session

  function Waiting(ordering: map<(SessionId, DeliveryId), nat>, sid: SessionId): set<(SessionId, DeliveryId)> {
    set k | k in ordering.Keys && k.0 == sid
  }

  /** The worker is busy with h for the session. */
  predicate Works(m: Machine, sid: SessionId, h: DeliveryId) {
    h in m.flights && m.flights[h].job.intent.sessionId == sid
  }

  ghost predicate IsReady(c: Clocked, sid: SessionId, n: nat, h: DeliveryId, ready: int, k: nat) {
    var q := c.m.q;
    && sid !in q.inflightSessions && IsHead(q.ordering, sid, h) && |Waiting(q.ordering, sid)| == n
    && h in q.scheduled && h in q.jobs && ready == ReadyAt(c, sid, h) && k == q.jobs[h].attempt
  }

  ghost predicate IsBusy(c: Clocked, sid: SessionId, n: nat, h: DeliveryId, since: int, k: nat) {
    && Works(c.m, sid, h) && AwaitsResponse(c.m.flights[h].phase) && IsHead(c.m.q.ordering, sid, h)
    && |Waiting(c.m.q.ordering, sid)| == n && h in c.picked && c.picked[h] == since && k == c.m.flights[h].job.attempt
  }

  ghost predicate IsRetrying(c: Clocked, sid: SessionId, n: nat, h: DeliveryId, due: int, k: nat) {
    && Works(c.m, sid, h) && IsHead(c.m.q.ordering, sid, h) && |Waiting(c.m.q.ordering, sid)| == n
    && match c.m.flights[h].phase
       case Rewriting(next) => next.availableAt == due && next.attempt == k
       case Rescheduling => c.m.flights[h].job.availableAt == due && c.m.flights[h].job.attempt == k
       case Finishing => h in c.m.q.scheduled && c.m.q.scheduled[h] == due && h in c.m.q.jobs
         && c.m.q.jobs[h].attempt == k
       case _ => false
  }

  /** Everything else that waits in the session has not been attempted. */
  ghost predicate RestUntouched(q: Queue, sid: SessionId, h: DeliveryId) {
    forall x :: (sid, x) in q.ordering && x != h ==> x in q.jobs && q.jobs[x].attempt == 0
  }

  ghost predicate IsClosing(c: Clocked, sid: SessionId, n: nat, h: DeliveryId) {
    && Works(c.m, sid, h) && RestUntouched(c.m.q, sid, h)
    && match c.m.flights[h].phase
       case Burying(_, _) => |Waiting(c.m.q.ordering, sid)| == n + 1
       case Unscheduling => |Waiting(c.m.q.ordering, sid)| == n + 1
       case Unordering => |Waiting(c.m.q.ordering, sid)| == n + 1
       case Deleting => (sid, h) !in c.m.q.ordering && |Waiting(c.m.q.ordering, sid)| == n
       case Finishing => (sid, h) !in c.m.q.ordering && |Waiting(c.m.q.ordering, sid)| == n
       case _ => false
  }

  ghost predicate HasStage(c: Clocked, sid: SessionId, st: Stage) {
    match st
    case Done => sid !in c.m.q.inflightSessions && Waiting(c.m.q.ordering, sid) == {}
    case Ready(n, h, ready, k) => IsReady(c, sid, n, h, ready, k)
    case Busy(n, h, since, k) => IsBusy(c, sid, n, h, since, k)
    case Retrying(n, h, due, k) => IsRetrying(c, sid, n, h, due, k)
    case Closing(n, h) => IsClosing(c, sid, n, h)
  }

  // ---------------------------------------------------------------- what the machine keeps

  ghost predicate Good(m: Machine) {
    Ledger(m) && SentInTurn(m.q.ordering, m.sent)
  }

  lemma {:induction false} RequestedSomewhere(sent: seq<Request>, id: DeliveryId)
    requires Requests(sent, id) > 0
    ensures exists i :: 0 <= i < |sent| && sent[i].id == id
  {
    var n := |sent| - 1;
    if sent[n].id != id {
      RequestedSomewhere(sent[..n], id);
      var i :| 0 <= i < n && sent[..n][i].id == id;
      assert sent[i].id == id;
    }
  }

  /** One worker at a time in a session. */
  lemma OneWorker(m: Machine, sid: SessionId, h: DeliveryId, x: DeliveryId)
    requires Sound(m) && sid != NO_SESSION && Works(m, sid, h)
    ensures sid in m.q.inflightSessions
    ensures Works(m, sid, x) ==> x == h
  {
  }

  /** A waiting entry no worker is busy with belongs to a live job. */
  lemma EntryIsLive(m: Machine, sid: SessionId, x: DeliveryId)
    requires Ledger(m) && (sid, x) in m.q.ordering && x !in m.flights
    ensures x in m.q.rows && Live(m, x) && m.q.rows[x].intent.sessionId == sid && m.q.jobs[x].intent.sessionId == sid
    ensures x in m.q.scheduled && x in m.q.jobs && m.q.scheduled[x] == m.q.jobs[x].availableAt
  {
    assert Kept(m, x);
    assert Fits(m.q.jobs[x], x, Intents(m.q.rows), m.stamps);
  }

  lemma EntryInSession(m: Machine, sid: SessionId, x: DeliveryId)
    requires Sound(m) && (sid, x) in m.q.ordering
    ensures x in m.q.rows && m.q.rows[x].intent.sessionId == sid
      && m.q.rows[x].intent.sequence == m.q.ordering[(sid, x)]
    ensures x in m.flights ==> Works(m, sid, x)
  {
    if x in m.flights {
      assert Fits(m.flights[x].job, x, Intents(m.q.rows), m.stamps);
    }
  }

  /** Behind its head a session has not been attempted. */
  lemma Untouched(m: Machine, sid: SessionId, h: DeliveryId, x: DeliveryId)
    requires Good(m) && sid != NO_SESSION && IsHead(m.q.ordering, sid, h) && (sid, x) in m.q.ordering && x != h
      && x !in m.flights
    ensures x in m.q.jobs && m.q.jobs[x].attempt == 0
  {
    EntryIsLive(m, sid, x);
    assert Kept(m, x);
    if Requests(m.sent, x) > 0 {
      RequestedSomewhere(m.sent, x);
      var i :| 0 <= i < |m.sent| && m.sent[i].id == x;
      NotSentBehind(m, sid, h, x, i);
    }
  }

  lemma NotSentBehind(m: Machine, sid: SessionId, h: DeliveryId, x: DeliveryId, i: nat)
    requires Sound(m) && SentInTurn(m.q.ordering, m.sent) && sid != NO_SESSION
    requires IsHead(m.q.ordering, sid, h) && (sid, x) in m.q.ordering && i < |m.sent| && m.sent[i].id == x
    ensures h == x
  {
    EntryInSession(m, sid, h);
    EntryInSession(m, sid, x);
    HeadIsLowest(m.q.ordering, sid, h, x);
    assert m.sent[i].intent == Intents(m.q.rows)[x];
  }

  lemma RestIsUntouched(m: Machine, sid: SessionId, h: DeliveryId)
    requires Good(m) && sid != NO_SESSION && IsHead(m.q.ordering, sid, h) && Works(m, sid, h)
    ensures RestUntouched(m.q, sid, h)
  {
    forall x | (sid, x) in m.q.ordering && x != h ensures x in m.q.jobs && m.q.jobs[x].attempt == 0 {
      EntryInSession(m, sid, x);
      OneWorker(m, sid, h, x);
      hide Good, IsHead;
      Untouched(m, sid, h, x);
    }
  }

  // ---------------------------------------------------------------- what a stage depends on

  function WithWaiting(st: Stage, n: nat): Stage
    requires !st.Done? && !st.Closing?
  {
    match st
    case Ready(_, h, ready, k) => Ready(n, h, ready, k)
    case Busy(_, h, since, k) => Busy(n, h, since, k)
    case Retrying(_, h, due, k) => Retrying(n, h, due, k)
  }

  /** The two states agree on a delivery's job, schedule entry and worker, and on its session's worker. */
  ghost predicate SameTurn(c: Clocked, c': Clocked, sid: SessionId, h: DeliveryId) {
    && (h in c.m.q.jobs ==> h in c'.m.q.jobs && c'.m.q.jobs[h] == c.m.q.jobs[h])
    && (h in c.m.q.scheduled ==> h in c'.m.q.scheduled && c'.m.q.scheduled[h] == c.m.q.scheduled[h])
    && (h in c.m.flights ==> h in c'.m.flights && c'.m.flights[h] == c.m.flights[h])
    && (h in c.picked ==> h in c'.picked && c'.picked[h] == c.picked[h])
    && (sid in c'.m.q.inflightSessions <==> sid in c.m.q.inflightSessions)
    && (sid in c'.freed <==> sid in c.freed) && (sid in c.freed ==> c'.freed[sid] == c.freed[sid])
  }

  lemma HeadStageTransfers(c: Clocked, c': Clocked, sid: SessionId, st: Stage, n: nat)
    requires HasStage(c, sid, st) && !st.Done? && !st.Closing? && SameTurn(c, c', sid, st.head)
    requires IsHead(c'.m.q.ordering, sid, st.head) && |Waiting(c'.m.q.ordering, sid)| == n
    ensures HasStage(c', sid, WithWaiting(st, n))
  {
    hide IsHead, Waiting;
  }

  lemma ClosingTransfers(c: Clocked, c': Clocked, sid: SessionId, st: Stage, n: nat)
    requires HasStage(c, sid, st) && st.Closing? && SameTurn(c, c', sid, st.head) && RestUntouched(c'.m.q, sid, st.head)
    requires (sid, st.head) in c'.m.q.ordering <==> (sid, st.head) in c.m.q.ordering
    requires |Waiting(c'.m.q.ordering, sid)| == |Waiting(c.m.q.ordering, sid)| + n
    ensures HasStage(c', sid, Closing(st.waiting + n, st.head))
  {
    hide Waiting, RestUntouched;
  }

  lemma OnlyEntryIsHead(ordering: map<(SessionId, DeliveryId), nat>, sid: SessionId, h: DeliveryId)
    requires Waiting(ordering, sid) == {(sid, h)}
    ensures IsHead(ordering, sid, h)
  {
    assert (sid, h) in Waiting(ordering, sid);
    forall k | k in ordering.Keys && k.0 == sid ensures RanksBefore(ordering, sid, h, k.1) {
      assert k in Waiting(ordering, sid);
    }
  }

  lemma HeadIsWaiting(ordering: map<(SessionId, DeliveryId), nat>, sid: SessionId, h: DeliveryId)
    requires IsHead(ordering, sid, h)
    ensures Waiting(ordering, sid) != {}
  {
    assert (sid, h) in Waiting(ordering, sid);
  }

  // ---------------------------------------------------------------- the clock

  lemma ElapseIsStageStep(latencyMs: nat, c: Clocked, to: int, sid: SessionId, st: Stage)
    requires MayElapse(latencyMs, c, to) && sid != NO_SESSION && HasStage(c, sid, st)
    ensures HasStage(c.(clock := to), sid, st) && StageStep(latencyMs, c.clock, st, to, st)
  {
    hide IsHead, RestUntouched;
  }

  // ---------------------------------------------------------------- enqueues

  lemma EntriesAfterEnqueue(q: Queue, params: EnqueueParams, id: DeliveryId, at: EnqueueClock, sid: SessionId)
    requires forall s :: (s, id) !in q.ordering
    ensures var q' := Enqueued(q, params, id, at);
      && (SessionOf(params) != sid || sid == NO_SESSION ==> Waiting(q'.ordering, sid) == Waiting(q.ordering, sid))
      && (SessionOf(params) == sid != NO_SESSION ==>
            (sid, id) in q'.ordering && Waiting(q'.ordering, sid) == Waiting(q.ordering, sid) + {(sid, id)}
            && |Waiting(q'.ordering, sid)| == |Waiting(q.ordering, sid)| + 1)
  {
    var q' := Enqueued(q, params, id, at);
    if SessionOf(params) == sid != NO_SESSION {
      assert Waiting(q'.ordering, sid) == Waiting(q.ordering, sid) + {(sid, id)};
    } else {
      assert Waiting(q'.ordering, sid) == Waiting(q.ordering, sid);
    }
  }

  lemma HeadAfterEnqueue(m: Machine, params: EnqueueParams, id: DeliveryId, at: EnqueueClock, sid: SessionId,
        h: DeliveryId)
    requires Sound(m) && sid != NO_SESSION && IsHead(m.q.ordering, sid, h) && id !in m.q.rows
    ensures IsHead(Enqueued(m.q, params, id, at).ordering, sid, h)
  {
    EntryInSession(m, sid, h);
    if SessionOf(params) != NO_SESSION {
      JoinBehind(m.q.ordering, sid, h, (SessionOf(params), id), NextSequence(m.q, SessionOf(params)));
    }
  }

  /** The stage of a session a delivery joins. */
  function Joined(st: Stage, id: DeliveryId, clock: int): Stage {
    match st
    case Done => Ready(1, id, clock, 0)
    case Ready(n, h, ready, k) => Ready(n + 1, h, ready, k)
    case Busy(n, h, since, k) => Busy(n + 1, h, since, k)
    case Retrying(n, h, due, k) => Retrying(n + 1, h, due, k)
    case Closing(n, h) => Closing(n + 1, h)
  }

  function AfterEnqueue(c: Clocked, params: EnqueueParams, id: DeliveryId, at: EnqueueClock): Clocked {
    c.(m := Enqueue(c.m, params, id, at))
  }

  lemma JoinedStaysOnTime(latencyMs: nat, clock: int, st: Stage, id: DeliveryId)
    requires OnTime(latencyMs, clock, st)
    ensures OnTime(latencyMs, clock, Joined(st, id, clock))
  {
  }

  lemma EnqueueKeepsJobs(m: Machine, params: EnqueueParams, id: DeliveryId, at: EnqueueClock, x: DeliveryId)
    requires Ledger(m) && id !in m.q.rows && x != id
    ensures var m' := Enqueue(m, params, id, at);
      && m'.flights == m.flights && m'.q.inflightSessions == m.q.inflightSessions
      && (x in m.q.jobs <==> x in m'.q.jobs) && (x in m.q.jobs ==> m'.q.jobs[x] == m.q.jobs[x])
      && (x in m.q.scheduled <==> x in m'.q.scheduled) && (x in m.q.scheduled ==> m'.q.scheduled[x] == m.q.scheduled[x])
    ensures id !in m.q.jobs && id !in m.flights && id !in m.q.scheduled && forall s :: (s, id) !in m.q.ordering
  {
    UnknownId(m, id);
    assert id !in Intents(m.q.rows);
  }

  lemma EnqueueIsElsewhere(c: Clocked, params: EnqueueParams, id: DeliveryId, at: EnqueueClock, sid: SessionId,
        h: DeliveryId)
    requires Ledger(c.m) && id !in c.m.q.rows && h != id
    ensures SameTurn(c, AfterEnqueue(c, params, id, at), sid, h)
  {
    EnqueueKeepsJobs(c.m, params, id, at, h);
    hide Ledger, Enqueue;
  }

  /** An enqueue leaves the stages of the other sessions as they are and joins its own. */
  lemma EnqueueMovesHead(c: Clocked, params: EnqueueParams, id: DeliveryId, at: EnqueueClock, sid: SessionId, st: Stage)
    requires Ledger(c.m) && id !in c.m.q.rows && sid != NO_SESSION && HasStage(c, sid, st) && !st.Done? && !st.Closing?
    ensures HasStage(AfterEnqueue(c, params, id, at), sid, if SessionOf(params) == sid then Joined(st, id, c.clock)
      else st)
  {
    var h, c' := st.head, AfterEnqueue(c, params, id, at);
    assert IsHead(c.m.q.ordering, sid, h) && |Waiting(c.m.q.ordering, sid)| == st.waiting;
    EntryInSession(c.m, sid, h);
    EnqueueKeepsJobs(c.m, params, id, at, h);
    EntriesAfterEnqueue(c.m.q, params, id, at, sid);
    HeadAfterEnqueue(c.m, params, id, at, sid, h);
    assert c'.m.q == Enqueued(c.m.q, params, id, at);
    hide Ledger, IsHead, AfterEnqueue, Enqueued, Waiting, HasStage, SameTurn;
    EnqueueIsElsewhere(c, params, id, at, sid, h);
    HeadStageTransfers(c, c', sid, st, if SessionOf(params) == sid then st.waiting + 1 else st.waiting);
  }

  lemma EnqueueMovesClosing(c: Clocked, params: EnqueueParams, id: DeliveryId, at: EnqueueClock, sid: SessionId,
        st: Stage)
    requires Ledger(c.m) && id !in c.m.q.rows && sid != NO_SESSION && HasStage(c, sid, st) && st.Closing?
    ensures HasStage(AfterEnqueue(c, params, id, at), sid, if SessionOf(params) == sid then Joined(st, id, c.clock)
      else st)
  {
    var h, c' := st.head, AfterEnqueue(c, params, id, at);
    assert h in c.m.flights && RestUntouched(c.m.q, sid, h);
    EnqueueKeepsJobs(c.m, params, id, at, h + id + 1);
    EntriesAfterEnqueue(c.m.q, params, id, at, sid);
    EnqueueLeavesUntouched(c.m, params, id, at, sid, h);
    EnqueueIsElsewhere(c, params, id, at, sid, h);
    assert c'.m.q == Enqueued(c.m.q, params, id, at);
    assert (sid, h) in c.m.q.ordering <==> (sid, h) in c'.m.q.ordering;
    hide Ledger, AfterEnqueue, Enqueued, Waiting, HasStage, SameTurn, RestUntouched;
    ClosingTransfers(c, c', sid, st, if SessionOf(params) == sid then 1 else 0);
  }

  lemma EnqueueLeavesUntouched(m: Machine, params: EnqueueParams, id: DeliveryId, at: EnqueueClock, sid: SessionId,
        h: DeliveryId)
    requires Ledger(m) && id !in m.q.rows && RestUntouched(m.q, sid, h)
    ensures RestUntouched(Enqueued(m.q, params, id, at), sid, h)
  {
    var q' := Enqueued(m.q, params, id, at);
    NewJobIsDue(m.q, params, id, at);
    assert Enqueue(m, params, id, at).q == q';
    forall x | (sid, x) in q'.ordering && x != h ensures x in q'.jobs && q'.jobs[x].attempt == 0 {
      if x != id {
        EnqueueKeepsJobs(m, params, id, at, x);
        assert (sid, x) in m.q.ordering;
      }
    }
  }

  lemma OpenedIsReady(c: Clocked, sid: SessionId, id: DeliveryId)
    requires sid !in c.m.q.inflightSessions && Waiting(c.m.q.ordering, sid) == {(sid, id)}
    requires id in c.m.q.scheduled && c.m.q.scheduled[id] == c.clock && id in c.m.q.jobs && c.m.q.jobs[id].attempt == 0
    requires sid in c.freed ==> c.freed[sid] <= c.clock
    ensures HasStage(c, sid, Ready(1, id, c.clock, 0))
  {
    OnlyEntryIsHead(c.m.q.ordering, sid, id);
    hide IsHead, Waiting;
  }

  lemma AfterEnqueueFacts(c: Clocked, params: EnqueueParams, id: DeliveryId, at: EnqueueClock)
    ensures var c' := AfterEnqueue(c, params, id, at);
      && c'.m.q == Enqueued(c.m.q, params, id, at) && c'.clock == c.clock && c'.freed == c.freed
      && c'.m.q.inflightSessions == c.m.q.inflightSessions
  {
  }

  lemma EnqueueOpensSession(c: Clocked, params: EnqueueParams, id: DeliveryId, at: EnqueueClock, sid: SessionId)
    requires Ledger(c.m) && id !in c.m.q.rows && sid != NO_SESSION && HasStage(c, sid, Done) && at.now == c.clock
    requires sid in c.freed ==> c.freed[sid] <= c.clock
    ensures HasStage(AfterEnqueue(c, params, id, at), sid,
                     if SessionOf(params) == sid then Ready(1, id, c.clock, 0) else Done)
  {
    hide Ledger, AfterEnqueue, Enqueue, Enqueued, Waiting, IsHead;
    EnqueueKeepsJobs(c.m, params, id, at, id + 1);
    EntriesAfterEnqueue(c.m.q, params, id, at, sid);
    NewJobIsDue(c.m.q, params, id, at);
    AfterEnqueueFacts(c, params, id, at);
    if SessionOf(params) == sid {
      assert Waiting(c.m.q.ordering, sid) == {};
      OpenedIsReady(AfterEnqueue(c, params, id, at), sid, id);
    }
  }

  lemma NewJobIsDue(q: Queue, params: EnqueueParams, id: DeliveryId, at: EnqueueClock)
    ensures var q' := Enqueued(q, params, id, at);
      id in q'.jobs && q'.jobs[id].attempt == 0 && q'.jobs[id].availableAt == at.now && id in q'.scheduled
        && q'.scheduled[id] == at.now
  {
  }

  lemma EnqueueStages(c: Clocked, params: EnqueueParams, id: DeliveryId, at: EnqueueClock, sid: SessionId, st: Stage)
    requires Ledger(c.m) && id !in c.m.q.rows && sid != NO_SESSION && HasStage(c, sid, st) && at.now == c.clock
    requires sid in c.freed ==> c.freed[sid] <= c.clock
    ensures HasStage(AfterEnqueue(c, params, id, at), sid, if SessionOf(params) == sid then Joined(st, id, c.clock)
      else st)
  {
    hide Ledger, HasStage, AfterEnqueue;
    match st
    case Done => EnqueueOpensSession(c, params, id, at, sid);
    case Closing(n, h) => EnqueueMovesClosing(c, params, id, at, sid, st);
    case Ready(n, h, ready, k) => EnqueueMovesHead(c, params, id, at, sid, st);
    case Busy(n, h, since, k) => EnqueueMovesHead(c, params, id, at, sid, st);
    case Retrying(n, h, due, k) => EnqueueMovesHead(c, params, id, at, sid, st);
  }

  // ---------------------------------------------------------------- passes

  function AfterDispatch(c: Clocked, picked: seq<DeliveryId>): Clocked
    requires forall x :: x in picked ==> x in c.m.q.jobs
  {
    Clocked(c.m.(q := Dispatch(c.m.q, picked, {}), flights := TakeOff(c.m, picked)), c.clock,
            c.picked + (map id | id in picked :: c.clock), c.freed)
  }

  ghost predicate Pickable(c: Clocked, picked: seq<DeliveryId>) {
    forall x :: x in picked ==> Eligible(c.m.q, c.clock, x) && x in c.m.q.jobs && x in c.m.q.rows && x !in c.m.flights
  }

  lemma DispatchKeepsIndexes(m: Machine, picked: seq<DeliveryId>)
    requires forall x :: x in picked ==> x in m.q.jobs
    ensures var q' := Dispatch(m.q, picked, {});
      q'.scheduled == m.q.scheduled && q'.jobs == m.q.jobs && q'.ordering == m.q.ordering
      && q'.inflightSessions == m.q.inflightSessions + SessionsOf(m.q.jobs, picked)
  {
    assert m.q.scheduled - {} == m.q.scheduled;
  }

  /** Of a session only its head can be picked, and only when the session is idle. */
  lemma OnlyIdleHeadsArePicked(c: Clocked, picked: seq<DeliveryId>, sid: SessionId)
    requires Pickable(c, picked) && sid != NO_SESSION && sid in SessionsOf(c.m.q.jobs, picked)
    ensures sid !in c.m.q.inflightSessions
    ensures exists h :: h in picked && c.m.q.jobs[h].intent.sessionId == sid && IsHead(c.m.q.ordering, sid, h)
  {
    var h :| h in picked && c.m.q.jobs[h].intent.sessionId == sid;
    assert Eligible(c.m.q, c.clock, h);
  }

  lemma PickedTakesOff(c: Clocked, picked: seq<DeliveryId>, sid: SessionId, h: DeliveryId)
    requires h in picked && forall x :: x in picked ==> x in c.m.q.jobs
    ensures var c' := AfterDispatch(c, picked);
      && h in c'.m.flights && c'.m.flights[h] == Flight(c.m.q.jobs[h], Calling)
      && h in c'.picked && c'.picked[h] == c.clock && c'.m.q.ordering == c.m.q.ordering
  {
  }

  lemma DispatchPicksHead(c: Clocked, picked: seq<DeliveryId>, sid: SessionId, st: Stage)
    requires Pickable(c, picked) && sid != NO_SESSION && HasStage(c, sid, st) && st.Ready?
    requires forall x :: x in picked ==> x in c.m.q.jobs
    requires sid in SessionsOf(c.m.q.jobs, picked)
    ensures HasStage(AfterDispatch(c, picked), sid, Busy(st.waiting, st.head, c.clock, st.attempt))
  {
    OnlyIdleHeadsArePicked(c, picked, sid);
    var x :| x in picked && c.m.q.jobs[x].intent.sessionId == sid && IsHead(c.m.q.ordering, sid, x);
    OneHead(c.m.q.ordering, sid, x, st.head);
    PickedTakesOff(c, picked, sid, x);
    hide IsHead, AfterDispatch, SessionsOf, Waiting, Eligible, Pickable;
  }

  lemma UnpickedStays(c: Clocked, picked: seq<DeliveryId>, sid: SessionId, h: DeliveryId)
    requires Pickable(c, picked) && forall x :: x in picked ==> x in c.m.q.jobs
    requires h !in picked && (sid in SessionsOf(c.m.q.jobs, picked) ==> sid in c.m.q.inflightSessions)
    ensures SameTurn(c, AfterDispatch(c, picked), sid, h)
  {
    DispatchKeepsIndexes(c.m, picked);
    hide Eligible, SessionsOf;
  }

  lemma DispatchLeavesHead(c: Clocked, picked: seq<DeliveryId>, sid: SessionId, st: Stage)
    requires Pickable(c, picked) && sid != NO_SESSION && HasStage(c, sid, st) && Sound(c.m) && !st.Done?
    requires forall x :: x in picked ==> x in c.m.q.jobs
    requires st.Ready? ==> sid !in SessionsOf(c.m.q.jobs, picked)
    ensures SameTurn(c, AfterDispatch(c, picked), sid, st.head)
  {
    if st.Ready? {
      EntryOfPicked(c, picked, sid, st.head);
    } else {
      OneWorker(c.m, sid, st.head, st.head);
    }
    hide Sound, IsHead, Waiting, RestUntouched;
    UnpickedStays(c, picked, sid, st.head);
  }

  lemma DispatchLeavesDone(c: Clocked, picked: seq<DeliveryId>, sid: SessionId)
    requires HasStage(c, sid, Done) && forall x :: x in picked ==> x in c.m.q.jobs
    requires sid !in SessionsOf(c.m.q.jobs, picked)
    ensures HasStage(AfterDispatch(c, picked), sid, Done)
  {
    DispatchKeepsIndexes(c.m, picked);
    hide SessionsOf, Waiting;
  }

  lemma DispatchKeepsEntries(c: Clocked, picked: seq<DeliveryId>)
    requires forall x :: x in picked ==> x in c.m.q.jobs
    ensures var q' := AfterDispatch(c, picked).m.q; q'.ordering == c.m.q.ordering && q'.jobs == c.m.q.jobs
  {
    DispatchKeepsIndexes(c.m, picked);
  }

  /** With the indexes unchanged, a stage rests on what concerns its head. */
  lemma StageTransfers(c: Clocked, c': Clocked, sid: SessionId, st: Stage)
    requires HasStage(c, sid, st) && !st.Done? && SameTurn(c, c', sid, st.head)
    requires c'.m.q.ordering == c.m.q.ordering && c'.m.q.jobs == c.m.q.jobs
    ensures HasStage(c', sid, st)
  {
    hide SameTurn, IsHead, Waiting;
    if st.Closing? {
      SameRest(c.m.q, c'.m.q, sid, st.head);
      hide RestUntouched;
      ClosingTransfers(c, c', sid, st, 0);
    } else {
      HeadStageTransfers(c, c', sid, st, st.waiting);
    }
  }

  lemma DispatchLeavesStage(c: Clocked, picked: seq<DeliveryId>, sid: SessionId, st: Stage)
    requires Pickable(c, picked) && sid != NO_SESSION && HasStage(c, sid, st) && Sound(c.m)
    requires forall x :: x in picked ==> x in c.m.q.jobs
    requires st.Ready? || st.Done? ==> sid !in SessionsOf(c.m.q.jobs, picked)
    ensures HasStage(AfterDispatch(c, picked), sid, st)
  {
    hide Sound, AfterDispatch, Pickable, SameTurn, SessionsOf, HasStage;
    if st.Done? {
      DispatchLeavesDone(c, picked, sid);
    } else {
      DispatchLeavesHead(c, picked, sid, st);
      DispatchKeepsEntries(c, picked);
      StageTransfers(c, AfterDispatch(c, picked), sid, st);
    }
  }

  lemma EntryOfPicked(c: Clocked, picked: seq<DeliveryId>, sid: SessionId, h: DeliveryId)
    requires Sound(c.m) && sid != NO_SESSION && IsHead(c.m.q.ordering, sid, h)
    requires forall x :: x in picked ==> x in c.m.q.jobs
    requires sid !in SessionsOf(c.m.q.jobs, picked)
    ensures h !in picked
  {
    EntryInSession(c.m, sid, h);
    if h in c.m.q.jobs {
      assert Fits(c.m.q.jobs[h], h, Intents(c.m.q.rows), c.m.stamps);
    }
  }

  lemma DoneHasNoHead(c: Clocked, picked: seq<DeliveryId>, sid: SessionId)
    requires Pickable(c, picked) && sid != NO_SESSION && HasStage(c, sid, Done)
    requires forall x :: x in picked ==> x in c.m.q.jobs
    ensures sid !in SessionsOf(c.m.q.jobs, picked)
  {
    if sid in SessionsOf(c.m.q.jobs, picked) {
      OnlyIdleHeadsArePicked(c, picked, sid);
      var h :| h in picked && c.m.q.jobs[h].intent.sessionId == sid && IsHead(c.m.q.ordering, sid, h);
      HeadIsWaiting(c.m.q.ordering, sid, h);
    }
  }

  /** A pass makes a session busy from now on, or leaves its stage. */
  lemma DispatchStages(c: Clocked, picked: seq<DeliveryId>, sid: SessionId, st: Stage) returns (st': Stage)
    requires Pickable(c, picked) && sid != NO_SESSION && HasStage(c, sid, st) && Sound(c.m)
    requires forall x :: x in picked ==> x in c.m.q.jobs
    ensures HasStage(AfterDispatch(c, picked), sid, st')
    ensures st' == st || (st.Ready? && st' == Busy(st.waiting, st.head, c.clock, st.attempt))
  {
    hide Pickable, HasStage, AfterDispatch, SessionsOf, Sound;
    st' := st;
    if st.Done? {
      DoneHasNoHead(c, picked, sid);
    }
    if st.Ready? && sid in SessionsOf(c.m.q.jobs, picked) {
      st' := Busy(st.waiting, st.head, c.clock, st.attempt);
      DispatchPicksHead(c, picked, sid, st);
    } else {
      DispatchLeavesStage(c, picked, sid, st);
    }
  }

  // ---------------------------------------------------------------- commands for other sessions

  function AfterAdvance(c: Clocked, id: DeliveryId, env: Env): Clocked
    requires id in c.m.flights
  {
    Noted(c, AdvanceStep(id, env), Advance(c.m, id, env))
  }

  /** A command takes at most its own entry from the sessions. */
  lemma AdvanceKeepsEntries(m: Machine, id: DeliveryId, env: Env, sid: SessionId)
    requires id in m.flights && m.flights[id].job.id == id && m.flights[id].job.intent.sessionId != sid
    ensures var after := Advance(m, id, env).q.ordering;
      && (forall k :: k in after ==> k in m.q.ordering)
      && (forall x :: (sid, x) in m.q.ordering ==> (sid, x) in after)
      && Waiting(after, sid) == Waiting(m.q.ordering, sid)
      && forall h :: IsHead(m.q.ordering, sid, h) ==> IsHead(after, sid, h)
  {
    AdvanceSends(m, id, env);
    var after, gone := Advance(m, id, env).q.ordering, (m.flights[id].job.intent.sessionId, id);
    assert after == m.q.ordering || after == m.q.ordering - {gone};
    hide Advance;
    if after != m.q.ordering {
      assert Waiting(after, sid) == Waiting(m.q.ordering, sid);
      forall h | IsHead(m.q.ordering, sid, h) ensures IsHead(after, sid, h) {
        StillHead(m.q.ordering, sid, h, gone);
      }
    }
  }

  /** Only the command that releases a job touches the worker's sessions, and only that job's. */
  lemma AdvanceKeepsSessions(m: Machine, id: DeliveryId, env: Env)
    requires id in m.flights
    ensures Advance(m, id, env).q.inflightSessions
      == if m.flights[id].phase.Finishing? then Release(m.q, m.flights[id].job).inflightSessions
        else m.q.inflightSessions
  {
    hide Record, Judge, AfterRecord, RequestOf, LetterFor;
    if m.flights[id].phase.Recording? {
      var job, result := m.flights[id].job, m.flights[id].phase.result;
      RecordKeepsIntents(m.q, job, result, Judge(job, result, env.now, env.rand), env.now);
    }
  }

  lemma AdvanceNotes(c: Clocked, id: DeliveryId, env: Env)
    requires id in c.m.flights
    ensures var c', flight := AfterAdvance(c, id, env), c.m.flights[id];
      && c'.m == Advance(c.m, id, env) && c'.clock == c.clock && c'.picked == c.picked
      && c'.freed == if flight.phase.Finishing? && flight.job.intent.sessionId != NO_SESSION
                     then c.freed[flight.job.intent.sessionId := c.clock] else c.freed
  {
    hide Advance;
  }

  lemma ReleaseFrees(q: Queue, job: Job, sid: SessionId)
    requires sid != NO_SESSION
    ensures var q' := Release(q, job);
      && (sid in q'.inflightSessions <==> sid in q.inflightSessions && sid != job.intent.sessionId)
      && q'.ordering == q.ordering && q'.jobs == q.jobs && q'.scheduled == q.scheduled
  {
  }

  lemma AdvanceIsElsewhere(c: Clocked, id: DeliveryId, env: Env, sid: SessionId, h: DeliveryId)
    requires Ledger(c.m) && id in c.m.flights && h in c.m.q.rows && h != id && sid != NO_SESSION
    requires c.m.flights[id].job.intent.sessionId != sid
    ensures SameTurn(c, AfterAdvance(c, id, env), sid, h)
  {
    FlightFacts(c.m, id);
    hide Ledger, Advance, OwnJob, Kept, Requests, Release, AfterAdvance;
    AdvanceElsewhere(c.m, id, env, h);
    AdvanceKeepsSessions(c.m, id, env);
    AdvanceNotes(c, id, env);
    ReleaseFrees(c.m.q, c.m.flights[id].job, sid);
  }

  /** What is behind a head stays as it is while others advance. */
  lemma AdvanceLeavesUntouched(m: Machine, id: DeliveryId, env: Env, sid: SessionId, h: DeliveryId)
    requires Ledger(m) && id in m.flights && RestUntouched(m.q, sid, h)
      && (id == h || m.flights[id].job.intent.sessionId != sid)
    ensures RestUntouched(Advance(m, id, env).q, sid, h)
  {
    var q' := Advance(m, id, env).q;
    FlightFacts(m, id);
    AdvanceSends(m, id, env);
    assert forall k :: k in q'.ordering ==> k in m.q.ordering;
    forall x | (sid, x) in q'.ordering && x != h ensures x in q'.jobs && q'.jobs[x].attempt == 0 {
      EntryInSession(m, sid, x);
      assert x in m.q.jobs && m.q.jobs[x].attempt == 0;
      hide Ledger, Advance, OwnJob, Kept, Requests;
      AdvanceElsewhere(m, id, env, x);
    }
  }

  lemma StageHeadKnown(m: Machine, c: Clocked, sid: SessionId, st: Stage)
    requires Ledger(m) && m == c.m && HasStage(c, sid, st) && !st.Done?
    ensures st.head in m.q.rows && (st.head in m.flights ==> Works(m, sid, st.head))
  {
    if st.Ready? {
      EntryInSession(m, sid, st.head);
    } else {
      FlightFacts(m, st.head);
    }
  }

  /** A command for a job of another session leaves the stage. */
  lemma AdvanceLeavesStage(c: Clocked, id: DeliveryId, env: Env, sid: SessionId, st: Stage)
    requires Ledger(c.m) && sid != NO_SESSION && HasStage(c, sid, st)
    requires id in c.m.flights && c.m.flights[id].job.intent.sessionId != sid
    ensures HasStage(AfterAdvance(c, id, env), sid, st)
  {
    var c' := AfterAdvance(c, id, env);
    FlightFacts(c.m, id);
    AdvanceKeepsEntries(c.m, id, env, sid);
    AdvanceKeepsSessions(c.m, id, env);
    assert c'.m.q.ordering == Advance(c.m, id, env).q.ordering;
    if !st.Done? {
      StageHeadKnown(c.m, c, sid, st);
      AdvanceIsElsewhere(c, id, env, sid, st.head);
      if st.Closing? {
        AdvanceLeavesUntouched(c.m, id, env, sid, st.head);
        hide Ledger, AfterAdvance, Advance, SameTurn, IsHead, Waiting, RestUntouched, Release;
        ClosingTransfers(c, c', sid, st, 0);
      } else {
        hide Ledger, AfterAdvance, Advance, SameTurn, IsHead, Waiting, Release;
        HeadStageTransfers(c, c', sid, st, st.waiting);
      }
    } else {
      hide Ledger, Advance, OwnJob, Kept, IsHead, Waiting;
    }
  }

  // ---------------------------------------------------------------- commands for the session itself

  lemma SomeoneWaits(ordering: map<(SessionId, DeliveryId), nat>, sid: SessionId, h: DeliveryId)
    requires IsHead(ordering, sid, h)
    ensures |Waiting(ordering, sid)| > 0
  {
    HeadIsWaiting(ordering, sid, h);
  }

  lemma CallDoes(m: Machine, h: DeliveryId, env: Env)
    requires h in m.flights && m.flights[h].phase.Calling?
    ensures var m' := Advance(m, h, env);
      && m'.q == m.q && h in m'.flights
      && m'.flights[h] == Flight(m.flights[h].job, if env.hasTarget then Recording(env.result) else Unscheduling)
  {
    hide RequestOf;
  }

  /** What a busy session becomes when its worker moves on and the indexes stay. */
  lemma BusyMovesOn(latencyMs: nat, c: Clocked, c': Clocked, sid: SessionId, st: Stage, flight: Flight)
      returns (st': Stage)
    requires HasStage(c, sid, st) && st.Busy? && OnTime(latencyMs, c.clock, st) && |Waiting(c.m.q.ordering, sid)| > 0
    requires st.head in c'.m.flights && c'.m.flights[st.head] == flight && flight.job == c.m.flights[st.head].job
    requires c'.m.q.ordering == c.m.q.ordering && RestUntouched(c'.m.q, sid, st.head) && c'.picked == c.picked
    requires AwaitsResponse(flight.phase) || flight.phase.Unscheduling? || flight.phase.Burying?
      || flight.phase.Rewriting?
    requires flight.phase.Rewriting? ==>
      st.attempt < 4 && flight.phase.next.attempt == st.attempt + 1
      && c.clock <= flight.phase.next.availableAt <= c.clock + LongestWait(st.attempt + 1)
    ensures HasStage(c', sid, st') && StageStep(latencyMs, c.clock, st, c.clock, st')
  {
    hide IsHead, Waiting, RestUntouched;
    st' := if AwaitsResponse(flight.phase) then st
           else if flight.phase.Rewriting?
             then Retrying(st.waiting, st.head, flight.phase.next.availableAt, st.attempt + 1)
           else Closing(st.waiting - 1, st.head);
  }

  lemma BusyFacts(c: Clocked, sid: SessionId, st: Stage)
    requires Good(c.m) && sid != NO_SESSION && HasStage(c, sid, st) && st.Busy?
    ensures st.head in c.m.flights && RestUntouched(c.m.q, sid, st.head) && |Waiting(c.m.q.ordering, sid)| > 0
    ensures st.attempt == c.m.flights[st.head].job.attempt
  {
    SomeoneWaits(c.m.q.ordering, sid, st.head);
    RestIsUntouched(c.m, sid, st.head);
  }

  lemma CallStages(latencyMs: nat, c: Clocked, env: Env, sid: SessionId, st: Stage) returns (st': Stage)
    requires Good(c.m) && sid != NO_SESSION && HasStage(c, sid, st) && OnTime(latencyMs, c.clock, st)
    requires st.Busy? && c.m.flights[st.head].phase.Calling?
    ensures HasStage(AfterAdvance(c, st.head, env), sid, st') && StageStep(latencyMs, c.clock, st, c.clock, st')
  {
    BusyFacts(c, sid, st);
    CallDoes(c.m, st.head, env);
    AdvanceNotes(c, st.head, env);
    hide Good, HasStage, OnTime, StageStep, Waiting, RestUntouched, Advance, AfterAdvance;
    st' := BusyMovesOn(latencyMs, c, AfterAdvance(c, st.head, env), sid, st,
                       Flight(c.m.flights[st.head].job, if env.hasTarget then Recording(env.result) else Unscheduling));
  }

  lemma RecordDoes(m: Machine, h: DeliveryId, env: Env)
    requires h in m.flights && m.flights[h].phase.Recording?
    ensures var m', job, result := Advance(m, h, env), m.flights[h].job, m.flights[h].phase.result;
      && m'.q == m.q.(rows := m'.q.rows) && h in m'.flights
      && m'.flights[h] == Flight(job, AfterRecord(job, result, Judge(job, result, env.now, env.rand), env.now))
  {
    hide Record, Judge, AfterRecord;
    var job, result := m.flights[h].job, m.flights[h].phase.result;
    RecordKeepsIntents(m.q, job, result, Judge(job, result, env.now, env.rand), env.now);
  }

  lemma SameRest(q: Queue, q': Queue, sid: SessionId, h: DeliveryId)
    requires RestUntouched(q, sid, h) && q'.ordering == q.ordering && q'.jobs == q.jobs
    ensures RestUntouched(q', sid, h)
  {
  }

  lemma RecordStages(latencyMs: nat, c: Clocked, env: Env, sid: SessionId, st: Stage) returns (st': Stage)
    requires Good(c.m) && sid != NO_SESSION && HasStage(c, sid, st) && OnTime(latencyMs, c.clock, st)
    requires st.Busy? && c.m.flights[st.head].phase.Recording? && env.now == c.clock && IsRandom(env.rand)
    ensures HasStage(AfterAdvance(c, st.head, env), sid, st') && StageStep(latencyMs, c.clock, st, c.clock, st')
  {
    var h := st.head;
    BusyFacts(c, sid, st);
    var job, result := c.m.flights[h].job, c.m.flights[h].phase.result;
    var verdict := Judge(job, result, env.now, env.rand);
    RecordDoes(c.m, h, env);
    VerdictInTime(job, result, env.now, env.rand);
    AdvanceNotes(c, h, env);
    SameRest(c.m.q, Advance(c.m, h, env).q, sid, h);
    hide Good, HasStage, OnTime, StageStep, Waiting, RestUntouched, Judge, Advance, AfterAdvance;
    st' := BusyMovesOn(latencyMs, c, AfterAdvance(c, h, env), sid, st,
      Flight(job, AfterRecord(job, result, verdict, env.now)));
  }

  lemma VerdictInTime(job: Job, result: DeliveryResult, now: int, rand: real)
    requires IsRandom(rand)
    ensures var v := Judge(job, result, now, rand);
      v.Again? ==> job.attempt < 4 && now <= v.availableAt <= now + LongestWait(job.attempt + 1)
  {
    hide BackoffDelayMs;
    if job.attempt < 4 {
      WaitsAtMost(job.attempt + 1, rand);
    }
  }

  lemma BuryDoes(m: Machine, h: DeliveryId, env: Env)
    requires h in m.flights && m.flights[h].phase.Burying? && m.flights[h].job.id == h && h !in m.q.deadLetters
    ensures var m' := Advance(m, h, env);
      m'.q == m.q.(deadLetters := m'.q.deadLetters) && h in m'.flights
        && m'.flights[h] == Flight(m.flights[h].job, Unscheduling)
  {
    hide LetterFor;
  }

  lemma BuryStages(c: Clocked, env: Env, sid: SessionId, st: Stage)
    requires Good(c.m) && sid != NO_SESSION && HasStage(c, sid, st) && st.Closing?
      && c.m.flights[st.head].phase.Burying?
    ensures HasStage(AfterAdvance(c, st.head, env), sid, st)
  {
    FlightFacts(c.m, st.head);
    assert UnderWay(c.m, st.head);
    BuryDoes(c.m, st.head, env);
    AdvanceNotes(c, st.head, env);
    SameRest(c.m.q, Advance(c.m, st.head, env).q, sid, st.head);
    hide Good, Waiting, RestUntouched, Kept, UnderWay, Advance, AfterAdvance;
  }

  lemma CleanDoes(m: Machine, h: DeliveryId, env: Env)
    requires h in m.flights
    requires m.flights[h].phase.Unscheduling? || m.flights[h].phase.Unordering? || m.flights[h].phase.Deleting?
    ensures var m', phase := Advance(m, h, env), m.flights[h].phase;
      && h in m'.flights
      && m'.flights[h] == Flight(m.flights[h].job,
           if phase.Unscheduling? then Unordering else if phase.Unordering? then Deleting else Finishing)
      && m'.q.ordering == if phase.Unordering? then Unorder(m.q, m.flights[h].job).ordering else m.q.ordering
  {
  }

  /** The head gives up its place. */
  lemma OneFewer(ordering: map<(SessionId, DeliveryId), nat>, sid: SessionId, h: DeliveryId)
    requires (sid, h) in ordering
    ensures |Waiting(ordering - {(sid, h)}, sid)| == |Waiting(ordering, sid)| - 1
  {
    assert Waiting(ordering - {(sid, h)}, sid) == Waiting(ordering, sid) - {(sid, h)};
    assert (sid, h) in Waiting(ordering, sid);
  }

  /** What a closing session remains while its worker cleans up. */
  lemma ClosingGoesOn(c: Clocked, c': Clocked, sid: SessionId, st: Stage)
    requires HasStage(c, sid, st) && st.Closing?
    requires var phase := c.m.flights[st.head].phase;
      && (phase.Unscheduling? || phase.Unordering? || phase.Deleting?)
      && st.head in c'.m.flights
      && c'.m.flights[st.head] == Flight(c.m.flights[st.head].job,
           if phase.Unscheduling? then Unordering else if phase.Unordering? then Deleting else Finishing)
      && RestUntouched(c'.m.q, sid, st.head)
      && c'.m.q.ordering == (if phase.Unordering? then c.m.q.ordering - {(sid, st.head)} else c.m.q.ordering)
      && (phase.Unordering? ==> (sid, st.head) in c.m.q.ordering)
    ensures HasStage(c', sid, st)
  {
    if c.m.flights[st.head].phase.Unordering? {
      OneFewer(c.m.q.ordering, sid, st.head);
    }
    hide Waiting, RestUntouched;
  }

  lemma ClosingFacts(c: Clocked, sid: SessionId, st: Stage)
    requires Good(c.m) && sid != NO_SESSION && HasStage(c, sid, st) && st.Closing?
    ensures st.head in c.m.flights && c.m.flights[st.head].job.intent.sessionId == sid
      && c.m.flights[st.head].job.id == st.head
    ensures RestUntouched(c.m.q, sid, st.head)
    ensures c.m.flights[st.head].phase.Unordering? ==> (sid, st.head) in c.m.q.ordering
  {
    FlightFacts(c.m, st.head);
    assert UnderWay(c.m, st.head);
    hide Good, RestUntouched;
  }

  lemma CleanStages(c: Clocked, env: Env, sid: SessionId, st: Stage)
    requires Good(c.m) && sid != NO_SESSION && HasStage(c, sid, st) && st.Closing?
    requires var phase := c.m.flights[st.head].phase; phase.Unscheduling? || phase.Unordering? || phase.Deleting?
    ensures HasStage(AfterAdvance(c, st.head, env), sid, st)
  {
    ClosingFacts(c, sid, st);
    hide HasStage, Ledger, RestUntouched, Advance, AfterAdvance;
    AdvanceLeavesUntouched(c.m, st.head, env, sid, st.head);
    CleanDoes(c.m, st.head, env);
    AdvanceNotes(c, st.head, env);
    ClosingGoesOn(c, AfterAdvance(c, st.head, env), sid, st);
  }

  lemma RetryDoes(m: Machine, h: DeliveryId, env: Env)
    requires h in m.flights && m.flights[h].job.id == h
    requires m.flights[h].phase.Rewriting? || m.flights[h].phase.Rescheduling?
    ensures var m', job, phase := Advance(m, h, env), m.flights[h].job, m.flights[h].phase;
      && m'.q.ordering == m.q.ordering && h in m'.flights
      && (phase.Rewriting? ==> m'.flights[h] == Flight(phase.next, Rescheduling))
      && (phase.Rescheduling? ==>
            m'.flights[h] == Flight(job, Finishing) && m'.q.jobs == m.q.jobs && h in m'.q.scheduled
              && m'.q.scheduled[h] == job.availableAt)
  {
  }

  /** What a retrying session remains while its worker writes the next attempt. */
  lemma RetryGoesOn(c: Clocked, c': Clocked, sid: SessionId, st: Stage)
    requires HasStage(c, sid, st) && st.Retrying? && c'.m.q.ordering == c.m.q.ordering && st.head in c'.m.flights
    requires var phase, flight', h := c.m.flights[st.head].phase, c'.m.flights[st.head], st.head;
      || (phase.Rewriting? && phase.next.intent == c.m.flights[h].job.intent
          && flight' == Flight(phase.next, Rescheduling))
      || (phase.Rescheduling? && flight' == Flight(c.m.flights[h].job, Finishing)
          && h in c'.m.q.jobs && c'.m.q.jobs[h] == c.m.flights[h].job
          && h in c'.m.q.scheduled && c'.m.q.scheduled[h] == c.m.flights[h].job.availableAt)
    ensures HasStage(c', sid, st)
  {
    hide Waiting, IsHead;
  }

  lemma ReschedulingFacts(m: Machine, h: DeliveryId)
    requires h in m.q.rows && h in m.flights && Kept(m, h) && m.flights[h].phase.Rescheduling?
    ensures h in m.q.jobs && m.q.jobs[h] == m.flights[h].job
  {
    assert UnderWay(m, h);
    hide LogComplete, Accounted, InSession, Recorded;
  }

  lemma RetryFacts(m: Machine, h: DeliveryId)
    requires Ledger(m) && h in m.flights
    ensures m.flights[h].job.id == h
    ensures m.flights[h].phase.Rewriting? ==> m.flights[h].phase.next.intent == m.flights[h].job.intent
    ensures m.flights[h].phase.Rescheduling? ==> h in m.q.jobs && m.q.jobs[h] == m.flights[h].job
  {
    FlightFacts(m, h);
    LedgerIsSound(m);
    hide Ledger, Sound, Kept;
    if m.flights[h].phase.Rewriting? {
      NextIsOfSession(m, h);
    }
    if m.flights[h].phase.Rescheduling? {
      ReschedulingFacts(m, h);
    }
  }

  lemma RetryStages(c: Clocked, env: Env, sid: SessionId, st: Stage)
    requires Good(c.m) && sid != NO_SESSION && HasStage(c, sid, st) && st.Retrying?
    requires var phase := c.m.flights[st.head].phase; phase.Rewriting? || phase.Rescheduling?
    ensures HasStage(AfterAdvance(c, st.head, env), sid, st)
  {
    assert st.head in c.m.flights;
    hide HasStage, Ledger, SentInTurn, Advance, AfterAdvance;
    RetryFacts(c.m, st.head);
    RetryDoes(c.m, st.head, env);
    AdvanceNotes(c, st.head, env);
    RetryGoesOn(c, AfterAdvance(c, st.head, env), sid, st);
  }

  /** The worker has released the session: what is waiting in it is as before. */
  ghost predicate Released(c: Clocked, c': Clocked, sid: SessionId) {
    && sid !in c'.m.q.inflightSessions && c'.m.q.ordering == c.m.q.ordering
    && c'.m.q.jobs == c.m.q.jobs && c'.m.q.scheduled == c.m.q.scheduled
    && sid in c'.freed && c'.freed[sid] == c.clock
  }

  lemma FinishReleases(c: Clocked, env: Env, sid: SessionId, h: DeliveryId)
    requires Works(c.m, sid, h) && c.m.flights[h].phase.Finishing? && sid != NO_SESSION
    ensures Released(c, AfterAdvance(c, h, env), sid)
  {
    FinishDoes(c.m, h, env, sid);
    AdvanceNotes(c, h, env);
    hide Advance, AfterAdvance;
  }

  lemma ReleasedIsReady(latencyMs: nat, c: Clocked, c': Clocked, sid: SessionId, st: Stage) returns (st': Stage)
    requires HasStage(c, sid, st) && OnTime(latencyMs, c.clock, st) && Released(c, c', sid)
    requires st.Retrying? && c.m.flights[st.head].phase.Finishing?
    ensures HasStage(c', sid, st') && StageStep(latencyMs, c.clock, st, c.clock, st')
  {
    hide Waiting, IsHead;
    st' := Ready(st.waiting, st.head, st.due, st.attempt);
  }

  lemma RetryIsReady(latencyMs: nat, c: Clocked, env: Env, sid: SessionId, st: Stage) returns (st': Stage)
    requires sid != NO_SESSION && HasStage(c, sid, st) && OnTime(latencyMs, c.clock, st)
    requires st.Retrying? && c.m.flights[st.head].phase.Finishing?
    ensures HasStage(AfterAdvance(c, st.head, env), sid, st') && StageStep(latencyMs, c.clock, st, c.clock, st')
  {
    FinishReleases(c, env, sid, st.head);
    hide HasStage, AfterAdvance, OnTime, StageStep, Released;
    st' := ReleasedIsReady(latencyMs, c, AfterAdvance(c, st.head, env), sid, st);
  }

  ghost predicate DueSoon(jobs: map<DeliveryId, Job>, clock: int) {
    forall id :: id in jobs && jobs[id].intent.sessionId != NO_SESSION ==>
      jobs[id].availableAt <= clock + LongestWait(jobs[id].attempt)
  }

  /** When the head has given up its place, the next one, not attempted and long due, has its turn. */
  lemma NextHasItsTurn(c: Clocked, sid: SessionId, st: Stage, x: DeliveryId) returns (h: DeliveryId)
    requires Good(c.m) && sid != NO_SESSION && HasStage(c, sid, st) && st.Closing?
      && c.m.flights[st.head].phase.Finishing?
    requires DueSoon(c.m.q.jobs, c.clock) && (sid, x) in c.m.q.ordering
    ensures IsHead(c.m.q.ordering, sid, h) && h != st.head
    ensures h in c.m.q.scheduled && h in c.m.q.jobs && c.m.q.scheduled[h] <= c.clock && c.m.q.jobs[h].attempt == 0
  {
    h := SessionHasHead(c.m.q.ordering, sid, x);
    HeadHasEntry(c.m.q.ordering, sid, h);
    EntryInSession(c.m, sid, h);
    OneWorker(c.m, sid, st.head, h);
    hide IsHead, Good, Sound;
    EntryIsLive(c.m, sid, h);
  }

  lemma FinishDoes(m: Machine, h: DeliveryId, env: Env, sid: SessionId)
    requires h in m.flights && m.flights[h].phase.Finishing? && m.flights[h].job.intent.sessionId == sid != NO_SESSION
    ensures var m' := Advance(m, h, env);
      && sid !in m'.q.inflightSessions && m'.q.ordering == m.q.ordering && m'.q.jobs == m.q.jobs
           && m'.q.scheduled == m.q.scheduled
  {
  }

  lemma ReleasedIsDone(latencyMs: nat, c: Clocked, c': Clocked, sid: SessionId, st: Stage)
    requires HasStage(c, sid, st) && st.Closing? && c.m.flights[st.head].phase.Finishing? && st.waiting == 0
    requires Released(c, c', sid)
    ensures HasStage(c', sid, Done) && StageStep(latencyMs, c.clock, st, c.clock, Done)
  {
    hide Waiting, RestUntouched;
  }

  lemma ReleasedIsFollowed(latencyMs: nat, c: Clocked, c': Clocked, sid: SessionId, st: Stage, h: DeliveryId)
    requires HasStage(c, sid, st) && st.Closing? && c.m.flights[st.head].phase.Finishing? && st.waiting > 0
    requires Released(c, c', sid)
    requires IsHead(c.m.q.ordering, sid, h) && h in c.m.q.scheduled && h in c.m.q.jobs
    requires c.m.q.scheduled[h] <= c.clock && c.m.q.jobs[h].attempt == 0
    ensures HasStage(c', sid, Ready(st.waiting, h, c.clock, 0))
    ensures StageStep(latencyMs, c.clock, st, c.clock, Ready(st.waiting, h, c.clock, 0))
  {
    hide Waiting, RestUntouched, IsHead;
  }

  lemma SomeEntry(c: Clocked, sid: SessionId, st: Stage) returns (x: DeliveryId)
    requires HasStage(c, sid, st) && st.Closing? && c.m.flights[st.head].phase.Finishing? && st.waiting > 0
    ensures (sid, x) in c.m.q.ordering
  {
    hide RestUntouched;
    assert Waiting(c.m.q.ordering, sid) != {};
    var k :| k in Waiting(c.m.q.ordering, sid);
    x := k.1;
    assert k == (sid, x);
  }

  lemma CloseIsFollowed(latencyMs: nat, c: Clocked, env: Env, sid: SessionId, st: Stage) returns (st': Stage)
    requires Good(c.m) && sid != NO_SESSION && HasStage(c, sid, st) && DueSoon(c.m.q.jobs, c.clock)
    requires st.Closing? && c.m.flights[st.head].phase.Finishing?
    ensures HasStage(AfterAdvance(c, st.head, env), sid, st') && StageStep(latencyMs, c.clock, st, c.clock, st')
  {
    FinishReleases(c, env, sid, st.head);
    hide Good, DueSoon, HasStage, AfterAdvance, StageStep, Released, IsHead;
    if st.waiting == 0 {
      st' := Done;
      ReleasedIsDone(latencyMs, c, AfterAdvance(c, st.head, env), sid, st);
    } else {
      var x := SomeEntry(c, sid, st);
      var h := NextHasItsTurn(c, sid, st, x);
      st' := Ready(st.waiting, h, c.clock, 0);
      ReleasedIsFollowed(latencyMs, c, AfterAdvance(c, st.head, env), sid, st, h);
    }
  }

  // ---------------------------------------------------------------- every step

  lemma FinishStages(latencyMs: nat, c: Clocked, env: Env, sid: SessionId, st: Stage) returns (st': Stage)
    requires Good(c.m) && sid != NO_SESSION && HasStage(c, sid, st) && OnTime(latencyMs, c.clock, st)
      && DueSoon(c.m.q.jobs, c.clock)
    requires !st.Done? && !st.Ready? && c.m.flights[st.head].phase.Finishing?
    ensures HasStage(AfterAdvance(c, st.head, env), sid, st') && StageStep(latencyMs, c.clock, st, c.clock, st')
  {
    if st.Retrying? {
      st' := RetryIsReady(latencyMs, c, env, sid, st);
    } else {
      st' := CloseIsFollowed(latencyMs, c, env, sid, st);
    }
  }

  lemma PhaseOfStage(c: Clocked, sid: SessionId, st: Stage)
    requires HasStage(c, sid, st) && !st.Done? && !st.Ready?
    ensures st.head in c.m.flights
    ensures var phase := c.m.flights[st.head].phase;
      && (phase.Calling? || phase.Recording? ==> st.Busy?)
      && (phase.Rewriting? || phase.Rescheduling? ==> st.Retrying?)
      && (phase.Burying? || phase.Unscheduling? || phase.Unordering? || phase.Deleting? ==> st.Closing?)
  {
    hide IsHead, Waiting, RestUntouched;
  }

  lemma OwnStages(latencyMs: nat, c: Clocked, env: Env, sid: SessionId, st: Stage) returns (st': Stage)
    requires Good(c.m) && sid != NO_SESSION && HasStage(c, sid, st) && OnTime(latencyMs, c.clock, st)
      && DueSoon(c.m.q.jobs, c.clock)
    requires !st.Done? && !st.Ready? && env.now == c.clock && IsRandom(env.rand)
    ensures st.head in c.m.flights
    ensures HasStage(AfterAdvance(c, st.head, env), sid, st') && StageStep(latencyMs, c.clock, st, c.clock, st')
  {
    PhaseOfStage(c, sid, st);
    SameStep(latencyMs, c.clock, st);
    hide Good, HasStage, DueSoon, AfterAdvance, OnTime, StageStep;
    st' := st;
    match c.m.flights[st.head].phase
    case Calling => st' := CallStages(latencyMs, c, env, sid, st);
    case Recording(result) => st' := RecordStages(latencyMs, c, env, sid, st);
    case Burying(reason, lastEntry) => BuryStages(c, env, sid, st);
    case Unscheduling => CleanStages(c, env, sid, st);
    case Unordering => CleanStages(c, env, sid, st);
    case Deleting => CleanStages(c, env, sid, st);
    case Rewriting(next) => RetryStages(c, env, sid, st);
    case Rescheduling => RetryStages(c, env, sid, st);
    case Finishing => st' := FinishStages(latencyMs, c, env, sid, st);
  }

  lemma WorkerIsHead(c: Clocked, sid: SessionId, st: Stage, id: DeliveryId)
    requires Sound(c.m) && sid != NO_SESSION && HasStage(c, sid, st) && Works(c.m, sid, id)
    ensures !st.Done? && !st.Ready? && st.head == id
  {
    OneWorker(c.m, sid, id, id);
    if !st.Done? && !st.Ready? {
      OneWorker(c.m, sid, id, st.head);
    }
    hide Sound, IsHead, Waiting, RestUntouched;
  }

  lemma AdvanceStages(latencyMs: nat, c: Clocked, id: DeliveryId, env: Env, sid: SessionId, st: Stage)
      returns (st': Stage)
    requires Good(c.m) && sid != NO_SESSION && HasStage(c, sid, st) && OnTime(latencyMs, c.clock, st)
      && DueSoon(c.m.q.jobs, c.clock)
    requires id in c.m.flights && env.now == c.clock && IsRandom(env.rand)
    ensures HasStage(AfterAdvance(c, id, env), sid, st') && StageStep(latencyMs, c.clock, st, c.clock, st')
  {
    hide HasStage, DueSoon, AfterAdvance, Sound;
    if c.m.flights[id].job.intent.sessionId == sid {
      WorkerIsHead(c, sid, st, id);
      st' := OwnStages(latencyMs, c, env, sid, st);
    } else {
      AdvanceLeavesStage(c, id, env, sid, st);
      st' := st;
    }
  }

  /** A delivery of this session is enqueued. */
  predicate Joins(m: Machine, ts: TimedStep, sid: SessionId) {
    ts.Do? &&
    match ts.step
    case EnqueueStep(params, id, at) => SessionOf(params) == sid
    case RequeueStep(merchantId, dead, id, at, now) => MayRequeue(m.q, merchantId, dead)
      && m.q.deadLetters[dead].sessionId == sid
    case _ => false
  }

  ghost predicate FreedBefore(freed: map<SessionId, int>, clock: int) {
    forall sid :: sid in freed ==> freed[sid] <= clock
  }

  ghost predicate OnTimeSession(latencyMs: nat, c: Clocked, sid: SessionId) {
    exists st :: HasStage(c, sid, st) && OnTime(latencyMs, c.clock, st)
  }

  ghost predicate InTime(latencyMs: nat, c: Clocked) {
    && Good(c.m) && DueSoon(c.m.q.jobs, c.clock) && FreedBefore(c.freed, c.clock)
    && forall sid :: sid != NO_SESSION ==> OnTimeSession(latencyMs, c, sid)
  }

  lemma SameStep(latencyMs: nat, clock: int, st: Stage)
    requires OnTime(latencyMs, clock, st)
    ensures StageStep(latencyMs, clock, st, clock, st)
  {
  }

  lemma DeadLettersDoNotMatter(c: Clocked, letters: map<DeliveryId, DeadLetter>, sid: SessionId, st: Stage)
    requires HasStage(c, sid, st)
    ensures HasStage(c.(m := c.m.(q := c.m.q.(deadLetters := letters))), sid, st)
  {
    hide IsHead, Waiting;
  }

  lemma RequeueStages(c: Clocked, dead: DeliveryId, id: DeliveryId, at: EnqueueClock, now: int, sid: SessionId,
        st: Stage)
    requires Ledger(c.m) && id !in c.m.q.rows && sid != NO_SESSION && HasStage(c, sid, st) && at.now == c.clock
    requires sid in c.freed ==> c.freed[sid] <= c.clock
    requires dead in c.m.q.deadLetters
    ensures HasStage(c.(m := Requeue(c.m, dead, id, at, now)), sid,
                     if c.m.q.deadLetters[dead].sessionId == sid then Joined(st, id, c.clock) else st)
  {
    var params := RequeueParams(c.m.q.deadLetters[dead]);
    var m' := Requeue(c.m, dead, id, at, now);
    hide Ledger, HasStage, Enqueued, Joined;
    EnqueueStages(c, params, id, at, sid, st);
    DeadLettersDoNotMatter(AfterEnqueue(c, params, id, at), m'.q.deadLetters, sid,
                           if SessionOf(params) == sid then Joined(st, id, c.clock) else st);
  }

  lemma DispatchNothing(m: Machine)
    ensures Dispatch(m.q, [], {}) == m.q && TakeOff(m, []) == m.flights
  {
    assert m.q.scheduled - {} == m.q.scheduled && AsSet([]) == {} && SessionsOf(m.q.jobs, []) == {};
    assert m.flights + map[] == m.flights;
  }

  lemma TickDispatches(maxConcurrency: int, m: Machine, now: int, picked: seq<DeliveryId>, m': Machine)
    requires Ledger(m) && Next(maxConcurrency, m, TickStep(now, picked), m')
    ensures forall x :: x in picked ==> Eligible(m.q, now, x) && x in m.q.jobs
    ensures m' == m.(q := Dispatch(m.q, picked, {}), flights := TakeOff(m, picked))
  {
    NothingStale(m, now);
    DispatchNothing(m);
    hide Ledger, Eligible, Dispatch, TakeOff, StaleIds, InOrder;
  }

  lemma TickIsPickable(maxConcurrency: int, c: Clocked, picked: seq<DeliveryId>, m': Machine)
    requires Good(c.m) && Next(maxConcurrency, c.m, TickStep(c.clock, picked), m')
    ensures Pickable(c, picked) && Sound(c.m) && forall x :: x in picked ==> x in c.m.q.jobs
    ensures Noted(c, TickStep(c.clock, picked), m') == AfterDispatch(c, picked)
  {
    hide Eligible, Dispatch, TakeOff, Next, Sound;
    TickDispatches(maxConcurrency, c.m, c.clock, picked, m');
    PickedAreIdle(c.m, c.clock, picked);
  }

  lemma TickStages(maxConcurrency: int, latencyMs: nat, c: Clocked, picked: seq<DeliveryId>, m': Machine,
        sid: SessionId, st: Stage)
    returns (st': Stage)
    requires Good(c.m) && sid != NO_SESSION && HasStage(c, sid, st) && OnTime(latencyMs, c.clock, st)
    requires Next(maxConcurrency, c.m, TickStep(c.clock, picked), m')
    ensures HasStage(Noted(c, TickStep(c.clock, picked), m'), sid, st')
      && StageStep(latencyMs, c.clock, st, c.clock, st')
  {
    TickIsPickable(maxConcurrency, c, picked, m');
    SameStep(latencyMs, c.clock, st);
    hide Good, HasStage, Pickable, Next, Sound, AfterDispatch, Noted;
    st' := DispatchStages(c, picked, sid, st);
  }

  lemma EnqueueTimed(maxConcurrency: int, latencyMs: nat, c: Clocked, step: Step, c': Clocked, sid: SessionId,
        st: Stage)
    requires InTime(latencyMs, c) && TimedNext(maxConcurrency, latencyMs, c, Do(step), c') && sid != NO_SESSION
    requires (step.EnqueueStep? || step.RequeueStep?) && !Joins(c.m, Do(step), sid) && HasStage(c, sid, st)
    ensures HasStage(c', sid, st) && c'.clock == c.clock
  {
    hide HasStage, OnTimeSession, Ledger, SentInTurn, DueSoon, Enqueued, Joined;
    match step
    case EnqueueStep(params, id, at) => EnqueueStages(c, params, id, at, sid, st);
    case RequeueStep(merchantId, dead, id, at, now) =>
      if MayRequeue(c.m.q, merchantId, dead) {
        RequeueStages(c, dead, id, at, now, sid, st);
      }
  }

  lemma WorkTimed(maxConcurrency: int, latencyMs: nat, c: Clocked, step: Step, c': Clocked, sid: SessionId, st: Stage)
      returns (st': Stage)
    requires InTime(latencyMs, c) && TimedNext(maxConcurrency, latencyMs, c, Do(step), c') && sid != NO_SESSION
    requires (step.TickStep? || step.AdvanceStep?) && HasStage(c, sid, st) && OnTime(latencyMs, c.clock, st)
    ensures HasStage(c', sid, st') && StageStep(latencyMs, c.clock, st, c'.clock, st')
  {
    hide HasStage, OnTimeSession, OnTime, StageStep, Ledger, SentInTurn, DueSoon, IsTick, Advance;
    if step.TickStep? {
      st' := TickStages(maxConcurrency, latencyMs, c, step.picked, c'.m, sid, st);
    } else {
      st' := AdvanceStages(latencyMs, c, step.id, step.env, sid, st);
    }
  }

  /** One step of a session nothing joins: its stage follows. */
  lemma TimedStages(maxConcurrency: int, latencyMs: nat, c: Clocked, ts: TimedStep, c': Clocked, sid: SessionId,
        st: Stage)
    returns (st': Stage)
    requires InTime(latencyMs, c) && TimedNext(maxConcurrency, latencyMs, c, ts, c') && sid != NO_SESSION
      && !Joins(c.m, ts, sid)
    requires HasStage(c, sid, st) && OnTime(latencyMs, c.clock, st)
    ensures HasStage(c', sid, st') && StageStep(latencyMs, c.clock, st, c'.clock, st')
  {
    SameStep(latencyMs, c.clock, st);
    hide HasStage, OnTime, StageStep, Next, MayElapse, InTime, Joins, AtClock;
    st' := st;
    if ts.Elapse? {
      ElapseIsStageStep(latencyMs, c, ts.to, sid, st);
    } else if ts.step.EnqueueStep? || ts.step.RequeueStep? {
      EnqueueTimed(maxConcurrency, latencyMs, c, ts.step, c', sid, st);
    } else {
      st' := WorkTimed(maxConcurrency, latencyMs, c, ts.step, c', sid, st);
    }
  }

  /** A session that is joined is still on time. */
  lemma JoinedSession(maxConcurrency: int, latencyMs: nat, c: Clocked, ts: TimedStep, c': Clocked, sid: SessionId)
    requires InTime(latencyMs, c) && TimedNext(maxConcurrency, latencyMs, c, ts, c') && sid != NO_SESSION
      && Joins(c.m, ts, sid)
    ensures OnTimeSession(latencyMs, c', sid)
  {
    assert OnTimeSession(latencyMs, c, sid);
    var st :| HasStage(c, sid, st) && OnTime(latencyMs, c.clock, st);
    hide HasStage, OnTime, Ledger, SentInTurn, DueSoon, Enqueued, Joined;
    match ts.step
    case EnqueueStep(params, id, at) =>
      EnqueueStages(c, params, id, at, sid, st);
      JoinedStaysOnTime(latencyMs, c.clock, st, id);
    case RequeueStep(merchantId, dead, id, at, now) =>
      RequeueStages(c, dead, id, at, now, sid, st);
      JoinedStaysOnTime(latencyMs, c.clock, st, id);
  }

  lemma SessionStaysOnTime(maxConcurrency: int, latencyMs: nat, c: Clocked, ts: TimedStep, c': Clocked, sid: SessionId)
    requires InTime(latencyMs, c) && TimedNext(maxConcurrency, latencyMs, c, ts, c') && sid != NO_SESSION
    ensures OnTimeSession(latencyMs, c', sid)
  {
    assert OnTimeSession(latencyMs, c, sid);
    if Joins(c.m, ts, sid) {
      JoinedSession(maxConcurrency, latencyMs, c, ts, c', sid);
    } else {
      var st :| HasStage(c, sid, st) && OnTime(latencyMs, c.clock, st);
      hide HasStage, OnTime, StageStep, InTime, TimedNext, Joins;
      var st' := TimedStages(maxConcurrency, latencyMs, c, ts, c', sid, st);
      StepStaysOnTime(latencyMs, c.clock, st, c'.clock, st');
    }
  }

  // ---------------------------------------------------------------- what every step keeps

  lemma RewrittenIsDueSoon(latencyMs: nat, c: Clocked, id: DeliveryId)
    requires Sound(c.m) && id in c.m.flights && c.m.flights[id].phase.Rewriting?
    requires var sid := c.m.flights[id].job.intent.sessionId; sid != NO_SESSION && OnTimeSession(latencyMs, c, sid)
    ensures var next := c.m.flights[id].phase.next; next.availableAt <= c.clock + LongestWait(next.attempt)
  {
    var sid := c.m.flights[id].job.intent.sessionId;
    var st :| HasStage(c, sid, st) && OnTime(latencyMs, c.clock, st);
    WorkerIsHead(c, sid, st, id);
    hide Sound, IsHead, Waiting, RestUntouched;
  }

  lemma AdvanceWrites(m: Machine, id: DeliveryId, env: Env)
    requires OwnJob(m, id)
    ensures var m', phase := Advance(m, id, env), m.flights[id].phase;
      forall x :: x in m'.q.jobs ==>
        (x in m.q.jobs && m'.q.jobs[x] == m.q.jobs[x]) || (phase.Rewriting? && m'.q.jobs[x] == phase.next)
  {
    hide Record, Judge, AfterRecord, RequestOf, LetterFor;
    if m.flights[id].phase.Recording? {
      var job, result := m.flights[id].job, m.flights[id].phase.result;
      RecordKeepsIntents(m.q, job, result, Judge(job, result, env.now, env.rand), env.now);
    }
  }

  lemma NextIsOfSession(m: Machine, id: DeliveryId)
    requires Sound(m) && id in m.flights && m.flights[id].phase.Rewriting?
    ensures m.flights[id].phase.next.intent == m.flights[id].job.intent
  {
    assert Fits(m.flights[id].job, id, Intents(m.q.rows), m.stamps);
  }

  lemma WrittenIsDueSoon(latencyMs: nat, c: Clocked, id: DeliveryId)
    requires InTime(latencyMs, c) && id in c.m.flights && c.m.flights[id].phase.Rewriting?
    ensures var next := c.m.flights[id].phase.next;
      next.intent.sessionId != NO_SESSION ==> next.availableAt <= c.clock + LongestWait(next.attempt)
  {
    NextIsOfSession(c.m, id);
    var sid := c.m.flights[id].job.intent.sessionId;
    if sid != NO_SESSION {
      assert OnTimeSession(latencyMs, c, sid);
      hide Ledger, OnTimeSession;
      LedgerIsSound(c.m);
      RewrittenIsDueSoon(latencyMs, c, id);
    }
  }

  lemma AdvanceStaysDueSoon(latencyMs: nat, c: Clocked, id: DeliveryId, env: Env)
    requires InTime(latencyMs, c) && id in c.m.flights
    ensures DueSoon(Advance(c.m, id, env).q.jobs, c.clock)
  {
    FlightFacts(c.m, id);
    hide OnTimeSession, Good, Ledger, Advance, OwnJob, Kept;
    AdvanceWrites(c.m, id, env);
    if c.m.flights[id].phase.Rewriting? {
      WrittenIsDueSoon(latencyMs, c, id);
    }
  }

  lemma EnqueueStaysDueSoon(q: Queue, params: EnqueueParams, id: DeliveryId, at: EnqueueClock, clock: int)
    requires DueSoon(q.jobs, clock) && at.now == clock
    ensures DueSoon(Enqueued(q, params, id, at).jobs, clock)
  {
  }

  lemma TimedStaysDueSoon(maxConcurrency: int, latencyMs: nat, c: Clocked, ts: TimedStep, c': Clocked)
    requires InTime(latencyMs, c) && TimedNext(maxConcurrency, latencyMs, c, ts, c')
    ensures DueSoon(c'.m.q.jobs, c'.clock)
  {
    hide OnTimeSession, Good, IsTick, IsHead, Advance, Enqueued;
    match ts
    case Elapse(to) => LaterIsDueSoon(c.m.q.jobs, c.clock, to);
    case Do(step) =>
      match step
      case EnqueueStep(params, id, at) => EnqueueStaysDueSoon(c.m.q, params, id, at, c.clock);
      case RequeueStep(merchantId, dead, id, at, now) =>
        if MayRequeue(c.m.q, merchantId, dead) {
          EnqueueStaysDueSoon(c.m.q, RequeueParams(c.m.q.deadLetters[dead]), id, at, c.clock);
        }
      case TickStep(now, picked) => TickKeepsJobs(maxConcurrency, c.m, now, picked, c'.m);
      case AdvanceStep(id, env) => AdvanceStaysDueSoon(latencyMs, c, id, env);
  }

  lemma LaterIsDueSoon(jobs: map<DeliveryId, Job>, clock: int, to: int)
    requires DueSoon(jobs, clock) && clock <= to
    ensures DueSoon(jobs, to)
  {
  }

  lemma TickKeepsJobs(maxConcurrency: int, m: Machine, now: int, picked: seq<DeliveryId>, m': Machine)
    requires Next(maxConcurrency, m, TickStep(now, picked), m')
    ensures m'.q.jobs == m.q.jobs
  {
    hide Eligible, EligibleIds, TakeOff, InOrder;
  }

  lemma TimedStaysFreed(maxConcurrency: int, latencyMs: nat, c: Clocked, ts: TimedStep, c': Clocked)
    requires FreedBefore(c.freed, c.clock) && TimedNext(maxConcurrency, latencyMs, c, ts, c')
    ensures FreedBefore(c'.freed, c'.clock) && c.clock <= c'.clock
  {
    hide Next, IsHead;
  }

  lemma TimedStaysGood(maxConcurrency: int, latencyMs: nat, c: Clocked, ts: TimedStep, c': Clocked)
    requires Good(c.m) && TimedNext(maxConcurrency, latencyMs, c, ts, c')
    ensures Good(c'.m)
  {
    hide Next, Ledger, SentInTurn, MayElapse, Sound;
    if ts.Do? {
      StepKeepsLedgerIff(maxConcurrency, c.m, ts.step, c'.m);
      LedgerIsSound(c.m);
      StepKeepsTurn(maxConcurrency, c.m, ts.step, c'.m);
    }
  }

  lemma TimedStaysInTime(maxConcurrency: int, latencyMs: nat, c: Clocked, ts: TimedStep, c': Clocked)
    requires InTime(latencyMs, c) && TimedNext(maxConcurrency, latencyMs, c, ts, c')
    ensures InTime(latencyMs, c')
  {
    hide TimedNext, Good, DueSoon, FreedBefore, OnTimeSession;
    TimedStaysGood(maxConcurrency, latencyMs, c, ts, c');
    TimedStaysDueSoon(maxConcurrency, latencyMs, c, ts, c');
    TimedStaysFreed(maxConcurrency, latencyMs, c, ts, c');
    forall sid: SessionId | sid != NO_SESSION ensures OnTimeSession(latencyMs, c', sid) {
      hide InTime;
      SessionStaysOnTime(maxConcurrency, latencyMs, c, ts, c', sid);
    }
  }

  lemma GoodInitially()
    ensures Good(InitialMachine())
  {
    LedgerInitially();
    hide Ledger;
  }

  lemma SessionInitially(latencyMs: nat, c: Clocked, sid: SessionId)
    requires c.m == InitialMachine()
    ensures OnTimeSession(latencyMs, c, sid)
  {
    assert Waiting(c.m.q.ordering, sid) == {};
    assert HasStage(c, sid, Done) && OnTime(latencyMs, c.clock, Done);
  }

  lemma InTimeInitially(latencyMs: nat, clock: int)
    ensures InTime(latencyMs, Clocked(InitialMachine(), clock, map[], map[]))
  {
    var c := Clocked(InitialMachine(), clock, map[], map[]);
    GoodInitially();
    assert DueSoon(c.m.q.jobs, clock) && FreedBefore(c.freed, clock);
    hide Good, DueSoon, OnTimeSession;
    forall sid: SessionId | sid != NO_SESSION ensures OnTimeSession(latencyMs, c, sid) {
      SessionInitially(latencyMs, c, sid);
    }
  }

  lemma {:induction false} RunIsInTime(maxConcurrency: int, latencyMs: nat, cs: seq<Clocked>, steps: seq<TimedStep>)
    requires IsTimedRun(maxConcurrency, latencyMs, cs, steps)
    ensures forall i :: 0 <= i < |cs| ==> InTime(latencyMs, cs[i])
  {
    hide TimedNext, InTime, InitialMachine;
    if steps == [] {
      var clock :| cs[0] == Clocked(InitialMachine(), clock, map[], map[]);
      InTimeInitially(latencyMs, clock);
    } else {
      var n := |steps| - 1;
      assert forall i :: 0 <= i <= n ==> cs[i] == cs[..n + 1][i];
      RunIsInTime(maxConcurrency, latencyMs, cs[..n + 1], steps[..n]);
      assert InTime(latencyMs, cs[..n + 1][n]);
      TimedStaysInTime(maxConcurrency, latencyMs, cs[n], steps[n], cs[n + 1]);
    }
  }

  // ---------------------------------------------------------------- main results

  ghost predicate NothingJoins(cs: seq<Clocked>, steps: seq<TimedStep>, i: nat, j: nat, sid: SessionId)
    requires i <= j <= |steps| < |cs|
  {
    forall n :: i <= n < j ==> !Joins(cs[n].m, steps[n], sid)
  }

  ghost predicate DoneBySession(latencyMs: nat, c: Clocked, sid: SessionId, end: int) {
    exists st :: HasStage(c, sid, st) && OnTime(latencyMs, c.clock, st) && DoneBy(latencyMs, c.clock, st, end)
  }

  lemma StepIsDoneBy(maxConcurrency: int, latencyMs: nat, c: Clocked, ts: TimedStep, c': Clocked, sid: SessionId,
        end: int)
    requires InTime(latencyMs, c) && TimedNext(maxConcurrency, latencyMs, c, ts, c') && sid != NO_SESSION
    requires !Joins(c.m, ts, sid) && DoneBySession(latencyMs, c, sid, end)
    ensures DoneBySession(latencyMs, c', sid, end)
  {
    var st :| HasStage(c, sid, st) && OnTime(latencyMs, c.clock, st) && DoneBy(latencyMs, c.clock, st, end);
    hide InTime, TimedNext, Joins, HasStage, OnTime, DoneBy, StageStep;
    var st' := TimedStages(maxConcurrency, latencyMs, c, ts, c', sid, st);
    StepStaysOnTime(latencyMs, c.clock, st, c'.clock, st');
    StepStaysDoneBy(latencyMs, c.clock, st, c'.clock, st', end);
  }

  lemma StepInTime(maxConcurrency: int, latencyMs: nat, cs: seq<Clocked>, steps: seq<TimedStep>, i: nat)
    requires IsTimedRun(maxConcurrency, latencyMs, cs, steps) && i < |steps|
    ensures |cs| == |steps| + 1 && InTime(latencyMs, cs[i])
    ensures TimedNext(maxConcurrency, latencyMs, cs[i], steps[i], cs[i + 1])
  {
    hide TimedNext, InTime;
    RunIsInTime(maxConcurrency, latencyMs, cs, steps);
  }

  lemma NothingJoinsBefore(cs: seq<Clocked>, steps: seq<TimedStep>, i: nat, j: nat, sid: SessionId)
    requires i < j <= |steps| < |cs| && NothingJoins(cs, steps, i, j, sid)
    ensures NothingJoins(cs, steps, i, j - 1, sid) && !Joins(cs[j - 1].m, steps[j - 1], sid)
  {
    hide Joins;
  }

  lemma {:induction false} StaysDoneBy(maxConcurrency: int, latencyMs: nat, cs: seq<Clocked>, steps: seq<TimedStep>,
        i: nat, j: nat, sid: SessionId, end: int)
    requires IsTimedRun(maxConcurrency, latencyMs, cs, steps) && i <= j <= |steps| && sid != NO_SESSION
    requires NothingJoins(cs, steps, i, j, sid) && DoneBySession(latencyMs, cs[i], sid, end)
    ensures DoneBySession(latencyMs, cs[j], sid, end)
    decreases j - i
  {
    hide *;
    if i < j {
      StepInTime(maxConcurrency, latencyMs, cs, steps, j - 1);
      NothingJoinsBefore(cs, steps, i, j, sid);
      StaysDoneBy(maxConcurrency, latencyMs, cs, steps, i, j - 1, sid, end);
      StepIsDoneBy(maxConcurrency, latencyMs, cs[j - 1], steps[j - 1], cs[j], sid, end);
    }
  }

  lemma {:induction false} BudgetGrows(latencyMs: nat, n: nat, k: nat)
    requires n <= k
    ensures Budget(latencyMs, n) <= Budget(latencyMs, k)
  {
    if n < k {
      BudgetGrows(latencyMs, n, k - 1);
    }
  }

  lemma LaterEnd(latencyMs: nat, clock: int, st: Stage, end: int, later: int)
    requires DoneBy(latencyMs, clock, st, end) && end <= later
    ensures DoneBy(latencyMs, clock, st, later)
  {
    hide TailMs, Budget;
  }

  lemma WaitingCounts(c: Clocked, sid: SessionId, st: Stage)
    requires HasStage(c, sid, st) && !st.Done?
    ensures st.waiting <= |Waiting(c.m.q.ordering, sid)|
  {
    hide IsHead, RestUntouched, Waiting;
  }

  lemma DueBy(latencyMs: nat, c: Clocked, sid: SessionId)
    requires OnTimeSession(latencyMs, c, sid)
    ensures DoneBySession(latencyMs, c, sid, c.clock + |Waiting(c.m.q.ordering, sid)| * JobBoundMs(latencyMs))
  {
    var st :| HasStage(c, sid, st) && OnTime(latencyMs, c.clock, st);
    var n := |Waiting(c.m.q.ordering, sid)|;
    var end := c.clock + n * JobBoundMs(latencyMs);
    OnTimeIsDoneBy(latencyMs, c.clock, st);
    BudgetIsProduct(latencyMs, n);
    hide OnTime, HasStage, JobBoundMs, Budget, Waiting;
    if !st.Done? {
      WaitingCounts(c, sid, st);
      BudgetGrows(latencyMs, st.waiting, n);
      LaterEnd(latencyMs, c.clock, st, c.clock + Budget(latencyMs, st.waiting), end);
    } else {
      assert DoneBy(latencyMs, c.clock, st, end);
    }
  }

  /** Nothing of the session waits or is in progress, and each of its deliveries has been delivered, dead-lettered or
      dropped. */
  ghost predicate SessionFinished(m: Machine, sid: SessionId) {
    && Waiting(m.q.ordering, sid) == {}
    && forall id :: id in m.q.rows && m.q.rows[id].intent.sessionId == sid ==> Closed(m.q.rows, m.dropped, id)
  }

  lemma DoneIsFinished(m: Machine, sid: SessionId)
    requires Sound(m) && sid != NO_SESSION && Waiting(m.q.ordering, sid) == {}
    ensures SessionFinished(m, sid)
  {
    forall id | id in m.q.rows && m.q.rows[id].intent.sessionId == sid ensures Closed(m.q.rows, m.dropped, id) {
      assert (sid, id) !in Waiting(m.q.ordering, sid);
    }
  }

  /** In every prompt run, from any moment on and whatever the responses, a session with n deliveries waiting that no
      more join is finished within n times 11,232 seconds, five timeouts and five dispatch latencies. */
  lemma SessionFinishesInTime(maxConcurrency: int, latencyMs: nat, cs: seq<Clocked>, steps: seq<TimedStep>, i: nat,
        j: nat, sid: SessionId)
    requires IsTimedRun(maxConcurrency, latencyMs, cs, steps) && i <= j <= |steps| && sid != NO_SESSION
    requires NothingJoins(cs, steps, i, j, sid)
    requires cs[j].clock > cs[i].clock + |Waiting(cs[i].m.q.ordering, sid)| * (11_282_000 + 5 * latencyMs)
    ensures SessionFinished(cs[j].m, sid)
  {
    assert |cs| == |steps| + 1;
    hide *;
    JobBound(latencyMs);
    StateInTime(maxConcurrency, latencyMs, cs, steps, i, sid);
    StateInTime(maxConcurrency, latencyMs, cs, steps, j, sid);
    DueBy(latencyMs, cs[i], sid);
    var end := cs[i].clock + |Waiting(cs[i].m.q.ordering, sid)| * JobBoundMs(latencyMs);
    StaysDoneBy(maxConcurrency, latencyMs, cs, steps, i, j, sid, end);
    PastItsEnd(latencyMs, cs[j], sid, end);
  }

  lemma JobBound(latencyMs: nat)
    ensures JobBoundMs(latencyMs) == 11_282_000 + 5 * latencyMs
  {
  }

  /** Past the time by which it is done, a session is finished. */
  lemma PastItsEnd(latencyMs: nat, c: Clocked, sid: SessionId, end: int)
    requires DoneBySession(latencyMs, c, sid, end) && c.clock > end && sid != NO_SESSION && Sound(c.m)
    ensures SessionFinished(c.m, sid)
  {
    var st :| HasStage(c, sid, st) && OnTime(latencyMs, c.clock, st) && DoneBy(latencyMs, c.clock, st, end);
    OnTimeIsDoneBy(latencyMs, c.clock, st);
    hide OnTime, DoneBy, Sound;
    assert st.Done?;
    DoneIsFinished(c.m, sid);
  }

  lemma StateInTime(maxConcurrency: int, latencyMs: nat, cs: seq<Clocked>, steps: seq<TimedStep>, i: nat,
        sid: SessionId)
    requires IsTimedRun(maxConcurrency, latencyMs, cs, steps) && i < |cs| && sid != NO_SESSION
    ensures Sound(cs[i].m) && OnTimeSession(latencyMs, cs[i], sid)
  {
    hide IsTimedRun, InTime, Sound, OnTimeSession;
    RunIsInTime(maxConcurrency, latencyMs, cs, steps);
    InTimeFacts(latencyMs, cs[i], sid);
  }

  lemma InTimeFacts(latencyMs: nat, c: Clocked, sid: SessionId)
    requires InTime(latencyMs, c) && sid != NO_SESSION
    ensures Sound(c.m) && OnTimeSession(latencyMs, c, sid)
  {
    hide Sound, OnTimeSession;
  }

  /** So with no latency to speak of, up to fifteen deliveries are finished before the keys written for them expire. */
  lemma FifteenFinishInTime(maxConcurrency: int, cs: seq<Clocked>, steps: seq<TimedStep>, i: nat, j: nat,
        sid: SessionId)
    requires IsTimedRun(maxConcurrency, 0, cs, steps) && i <= j <= |steps| && sid != NO_SESSION
    requires NothingJoins(cs, steps, i, j, sid) && |Waiting(cs[i].m.q.ordering, sid)| <= 15
    requires cs[j].clock > cs[i].clock + WEBHOOK_KEY_TTL_S * 1000
    ensures SessionFinished(cs[j].m, sid)
  {
    hide IsTimedRun, NothingJoins, Waiting, SessionFinished;
    SessionFinishesInTime(maxConcurrency, 0, cs, steps, i, j, sid);
  }
}
