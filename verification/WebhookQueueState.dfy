/** The tables and indexes of the webhook queue and what each command does to them
    (src/webhook/webhook-queue.service.ts). */
module WebhookQueueState {
  import opened Options
  import opened WebhookConstants

  /** Ids are UUIDs of one fixed format, so their text order is the order of the numbers they spell. */
  type DeliveryId = nat
  type MerchantId = nat

  /** Zero stands for the empty session id, "no session". */
  type SessionId = nat

  const NO_SESSION: SessionId := 0

  /** What a delivery is, fixed when it is enqueued. */
  datatype Intent = Intent(merchantId: MerchantId, sessionId: SessionId, event: string, data: string, sequence: nat,
    priority: nat)

  /** A job hash. The serialized payload holds the intent's event and data and the timestamp, so it is not a field of
      its own. */
  datatype Job = Job(id: DeliveryId, intent: Intent, timestamp: int, attempt: nat, availableAt: int)

  datatype DeliveryStatus = Pending | Delivered | Failed | Dead

  datatype Attempt = Attempt(attempt: nat, timestamp: int, status: Option<int>, error: Option<string>)

  datatype Row = Row(
    intent: Intent, createdAt: int, status: DeliveryStatus, attempts: nat, attemptLog: seq<Attempt>,
    responseStatus: Option<int>, deliveredAt: Option<int>, nextRetryAt: Option<int>)

  datatype Reason = Http4xx(status: Option<int>) | MaxAttempts

  datatype DeadLetter = DeadLetter(
    merchantId: MerchantId, sessionId: SessionId, event: string, data: string, attempts: seq<Attempt>, reason: Reason,
    retriedAt: Option<int>)

  datatype DeliveryResult = DeliveryResult(outcome: WebhookConstants.Outcome, status: Option<int>,
    error: Option<string>)

  datatype EnqueueParams = EnqueueParams(merchantId: MerchantId, event: string, body: string,
    sessionId: Option<SessionId>)

  /** The clock readings of one enqueue: for the signed timestamp, for the due time, and by the database at the
      insert. */
  datatype EnqueueClock = EnqueueClock(timestamp: int, now: int, createdAt: int)

  /** Redis, Postgres and worker state. The sorted set of a session is the part of `ordering` under its key. */
  datatype Queue = Queue(
    scheduled: map<DeliveryId, int>,
    ordering: map<(SessionId, DeliveryId), nat>,
    jobs: map<DeliveryId, Job>,
    seqs: map<SessionId, nat>,
    rows: map<DeliveryId, Row>,
    deadLetters: map<DeliveryId, DeadLetter>,
    active: int,
    processing: set<DeliveryId>,
    inflightSessions: set<SessionId>)

  function EmptyQueue(): Queue {
    Queue(map[], map[], map[], map[], map[], map[], 0, {}, {})
  }

  // ---------------------------------------------------------------- enqueue

  function SessionOf(params: EnqueueParams): SessionId {
    match params.sessionId case None => NO_SESSION case Some(sid) => sid
  }

  /** What `INCR` on the session's counter returns; 0 without a session. */
  function NextSequence(q: Queue, sid: SessionId): nat {
    if sid == NO_SESSION then 0 else if sid in q.seqs then q.seqs[sid] + 1 else 1
  }

  function NewIntent(params: EnqueueParams, sequence: nat): Intent {
    Intent(params.merchantId, SessionOf(params), params.event, params.body, sequence, PriorityFor(params.event))
  }

  function NewRow(intent: Intent, at: EnqueueClock): Row {
    Row(intent, at.createdAt, Pending, 0, [], None, None, None)
  }

  function NewJob(intent: Intent, id: DeliveryId, at: EnqueueClock): Job {
    Job(id, intent, at.timestamp, 0, at.now)
  }

  function Enqueued(q: Queue, params: EnqueueParams, id: DeliveryId, at: EnqueueClock): Queue {
    var sid := SessionOf(params);
    var sequence := NextSequence(q, sid);
    var intent := NewIntent(params, sequence);
    q.(seqs := if sid == NO_SESSION then q.seqs else q.seqs[sid := sequence],
       rows := q.rows[id := NewRow(intent, at)],
       jobs := q.jobs[id := NewJob(intent, id, at)],
       ordering := if sid == NO_SESSION then q.ordering else q.ordering[(sid, id) := sequence],
       scheduled := q.scheduled[id := at.now])
  }

  /** A dead letter can be requeued only by the merchant it belongs to. */
  predicate MayRequeue(q: Queue, merchantId: MerchantId, dead: DeliveryId) {
    dead in q.deadLetters && q.deadLetters[dead].merchantId == merchantId
  }

  function RequeueParams(letter: DeadLetter): EnqueueParams {
    EnqueueParams(letter.merchantId, letter.event, letter.data, Some(letter.sessionId))
  }

  function Requeued(q: Queue, dead: DeliveryId, id: DeliveryId, at: EnqueueClock, retriedAt: int): Queue
    requires dead in q.deadLetters
  {
    var q1 := Enqueued(q, RequeueParams(q.deadLetters[dead]), id, at);
    q1.(deadLetters := q1.deadLetters[dead := q1.deadLetters[dead].(retriedAt := Some(retriedAt))])
  }

  // ---------------------------------------------------------------- scheduling

  predicate RanksBefore(ordering: map<(SessionId, DeliveryId), nat>, sid: SessionId, a: DeliveryId, b: DeliveryId)
    requires (sid, a) in ordering && (sid, b) in ordering
  {
    var x, y := ordering[(sid, a)], ordering[(sid, b)];
    x < y || (x == y && a <= b)
  }

  /** Whether `ZRANGE session:{sid} 0 0` returns this job. */
  predicate IsHead(ordering: map<(SessionId, DeliveryId), nat>, sid: SessionId, id: DeliveryId) {
    && (sid, id) in ordering
    && forall k | k in ordering.Keys && k.0 == sid :: RanksBefore(ordering, sid, id, k.1)
  }

  /** Due, live, not in progress, and if it has a session: session idle and first in it. */
  predicate Eligible(q: Queue, now: int, id: DeliveryId) {
    && id in q.scheduled && q.scheduled[id] <= now
    && id !in q.processing
    && id in q.jobs
    && (q.jobs[id].intent.sessionId != NO_SESSION ==>
          && q.jobs[id].intent.sessionId !in q.inflightSessions
          && IsHead(q.ordering, q.jobs[id].intent.sessionId, id))
  }

  function EligibleIds(q: Queue, now: int): set<DeliveryId> {
    set id | id in q.scheduled.Keys && Eligible(q, now, id)
  }

  /** Due entries whose job hash is gone: a scan removes them. */
  function StaleIds(q: Queue, now: int): set<DeliveryId> {
    set id | id in q.scheduled.Keys && q.scheduled[id] <= now && id !in q.processing && id !in q.jobs
  }

  /** The comparator of the candidate sort: negative when `a` goes first. */
  function Compare(a: Job, b: Job): int {
    if a.intent.priority != b.intent.priority then a.intent.priority - b.intent.priority
    else if a.intent.sequence != b.intent.sequence then a.intent.sequence - b.intent.sequence
    else a.availableAt - b.availableAt
  }

  /** By priority, then by sequence, then by due time. */
  lemma CompareIsLexicographic(a: Job, b: Job)
    ensures Compare(a, b) <= 0 <==>
      || a.intent.priority < b.intent.priority
      || (a.intent.priority == b.intent.priority && a.intent.sequence < b.intent.sequence)
      || (a.intent.priority == b.intent.priority && a.intent.sequence == b.intent.sequence
          && a.availableAt <= b.availableAt)
  {
  }

  predicate Distinct(ids: seq<DeliveryId>) {
    forall i, j :: 0 <= i < j < |ids| ==> ids[i] != ids[j]
  }

  function AsSet(ids: seq<DeliveryId>): set<DeliveryId> {
    set id | id in ids
  }

  ghost predicate InOrder(jobs: map<DeliveryId, Job>, ids: seq<DeliveryId>)
    requires forall id :: id in ids ==> id in jobs
  {
    forall i, j :: 0 <= i < j < |ids| ==> Compare(jobs[ids[i]], jobs[ids[j]]) <= 0
  }

  function SessionsOf(jobs: map<DeliveryId, Job>, ids: seq<DeliveryId>): set<SessionId>
    requires forall id :: id in ids ==> id in jobs
  {
    set id | id in ids && jobs[id].intent.sessionId != NO_SESSION :: jobs[id].intent.sessionId
  }

  /** Every job hash is stored under its own id. */
  ghost predicate Keyed(jobs: map<DeliveryId, Job>) {
    forall id :: id in jobs ==> jobs[id].id == id
  }

  /** The state after dispatching `picked`, stale due entries having been removed. */
  function Dispatch(q: Queue, picked: seq<DeliveryId>, stale: set<DeliveryId>): Queue
    requires forall id :: id in picked ==> id in q.jobs
  {
    q.(scheduled := q.scheduled - stale,
       processing := q.processing + AsSet(picked),
       inflightSessions := q.inflightSessions + SessionsOf(q.jobs, picked),
       active := q.active + |picked|)
  }

  /** What one atomic scheduling pass does: it dispatches as many eligible jobs as there is room for, the best ones, in
      order. */
  ghost predicate IsTick(q: Queue, maxConcurrency: int, now: int, picked: seq<DeliveryId>, q': Queue) {
    var capacity := maxConcurrency - q.active;
    if capacity <= 0 then picked == [] && q' == q
    else
      var eligible := EligibleIds(q, now);
      && Distinct(picked)
      && (forall id :: id in picked ==> Eligible(q, now, id))
      && |picked| == Min(capacity, |eligible|)
      && InOrder(q.jobs, picked)
      && (forall a, b :: a in picked && b in eligible && b !in picked ==> Compare(q.jobs[a], q.jobs[b]) <= 0)
      && q' == Dispatch(q, picked, StaleIds(q, now))
  }

  /** The head of a session is the member with the least score, and of several the one with the least text. */
  lemma HeadIsLeast(ordering: map<(SessionId, DeliveryId), nat>, sid: SessionId, id: DeliveryId)
    ensures IsHead(ordering, sid, id) <==>
      && (sid, id) in ordering
      && forall x :: (sid, x) in ordering && x != id ==>
           ordering[(sid, id)] < ordering[(sid, x)] || (ordering[(sid, id)] == ordering[(sid, x)] && id < x)
  {
    if IsHead(ordering, sid, id) {
      forall x | (sid, x) in ordering && x != id
        ensures ordering[(sid, id)] < ordering[(sid, x)] || (ordering[(sid, id)] == ordering[(sid, x)] && id < x)
      {
        assert (sid, x) in ordering.Keys && RanksBefore(ordering, sid, id, (sid, x).1);
      }
    }
  }

  /** A session has one head. */
  lemma OneHead(ordering: map<(SessionId, DeliveryId), nat>, sid: SessionId, a: DeliveryId, b: DeliveryId)
    requires IsHead(ordering, sid, a) && IsHead(ordering, sid, b)
    ensures a == b
  {
    assert (sid, a) in ordering.Keys && (sid, b) in ordering.Keys;
    assert RanksBefore(ordering, sid, a, (sid, b).1) && RanksBefore(ordering, sid, b, (sid, a).1);
  }

  lemma {:induction false} DistinctCount(ids: seq<DeliveryId>)
    requires Distinct(ids)
    ensures |AsSet(ids)| == |ids|
  {
    if ids != [] {
      DistinctCount(ids[1..]);
      assert AsSet(ids) == {ids[0]} + AsSet(ids[1..]);
    }
  }

  // ---------------------------------------------------------------- processing

  function RecordDelivery(q: Queue, id: DeliveryId, status: DeliveryStatus, attempts: nat, entry: Attempt,
                          nextRetryAt: Option<int>, now: int): Queue
  {
    if id !in q.rows then q
    else
      var row := q.rows[id];
      q.(rows := q.rows[id := row.(status := status, attempts := attempts, attemptLog := row.attemptLog + [entry],
                                   responseStatus := entry.status, nextRetryAt := nextRetryAt,
                                   deliveredAt := if status.Delivered? then Some(now) else None)])
  }

  function Unschedule(q: Queue, id: DeliveryId): Queue {
    q.(scheduled := q.scheduled - {id})
  }

  function Unorder(q: Queue, job: Job): Queue {
    if job.intent.sessionId == NO_SESSION then q else q.(ordering := q.ordering - {(job.intent.sessionId, job.id)})
  }

  function DeleteJob(q: Queue, id: DeliveryId): Queue {
    q.(jobs := q.jobs - {id})
  }

  function Cleanup(q: Queue, job: Job): Queue {
    DeleteJob(Unorder(Unschedule(q, job.id), job), job.id)
  }

  function WriteJob(q: Queue, job: Job): Queue {
    q.(jobs := q.jobs[job.id := job])
  }

  function Schedule(q: Queue, id: DeliveryId, at: int): Queue {
    q.(scheduled := q.scheduled[id := at])
  }

  /** The row's own payload and full log when the row exists, else what the job knows. */
  function LetterFor(q: Queue, job: Job, reason: Reason, lastEntry: Attempt): DeadLetter {
    if job.id in q.rows then
      DeadLetter(job.intent.merchantId, job.intent.sessionId, job.intent.event, q.rows[job.id].intent.data,
                 q.rows[job.id].attemptLog, reason, None)
    else
      DeadLetter(job.intent.merchantId, job.intent.sessionId, job.intent.event, "{}", [lastEntry], reason, None)
  }

  function Bury(q: Queue, job: Job, reason: Reason, lastEntry: Attempt): Queue {
    q.(deadLetters := q.deadLetters[job.id := LetterFor(q, job, reason, lastEntry)])
  }

  /** The `finally` block. */
  function Release(q: Queue, job: Job): Queue {
    q.(inflightSessions := if job.intent.sessionId == NO_SESSION then q.inflightSessions
      else q.inflightSessions - {job.intent.sessionId},
       processing := q.processing - {job.id},
       active := Max(0, q.active - 1))
  }

  function EntryFor(job: Job, result: DeliveryResult, now: int): Attempt {
    Attempt(job.attempt + 1, now, result.status, result.error)
  }

  /** What an attempt's result leads to. */
  datatype Verdict = Deliver | Condemn(reason: Reason) | Again(availableAt: int)

  function Judge(job: Job, result: DeliveryResult, now: int, rand: real): Verdict {
    match result.outcome
    case Success => Deliver
    case Dead => Condemn(Http4xx(result.status))
    case Retry =>
      if job.attempt + 1 >= MAX_ATTEMPTS then Condemn(MaxAttempts)
      else Again(now + BackoffDelayMs(job.attempt + 1, rand))
  }

  function Record(q: Queue, job: Job, result: DeliveryResult, verdict: Verdict, now: int): Queue {
    var entry := EntryFor(job, result, now);
    match verdict
    case Deliver => RecordDelivery(q, job.id, Delivered, job.attempt + 1, entry, None, now)
    case Condemn(_) => RecordDelivery(q, job.id, DeliveryStatus.Dead, job.attempt + 1, entry, None, now)
    case Again(at) => RecordDelivery(q, job.id, Failed, job.attempt + 1, entry, Some(at), now)
  }

  /** `process` run without interference. The dead-letter insert throws when the delivery already has one. */
  function Processed(q: Queue, job: Job, hasTarget: bool, result: DeliveryResult, now: int, rand: real): Queue {
    if !hasTarget then Release(Cleanup(q, job), job)
    else
      var verdict := Judge(job, result, now, rand);
      var q1 := Record(q, job, result, verdict, now);
      match verdict
      case Deliver => Release(Cleanup(q1, job), job)
      case Condemn(reason) =>
        if job.id in q1.deadLetters then Release(q1, job)
        else Release(Cleanup(Bury(q1, job, reason, EntryFor(job, result, now)), job), job)
      case Again(at) =>
        var next := job.(attempt := job.attempt + 1, availableAt := at);
        Release(Schedule(WriteJob(q1, next), job.id, at), job)
  }

  // ---------------------------------------------------------------- crash recovery

  predicate Open(status: DeliveryStatus) {
    status.Pending? || status.Failed?
  }

  function OrphanIds(q: Queue): set<DeliveryId> {
    set id | id in q.rows.Keys && Open(q.rows[id].status) && id !in q.jobs
  }

  function JobFromRow(id: DeliveryId, row: Row, now: int): Job {
    Job(id, row.intent, row.createdAt, row.attempts, now)
  }

  function Revive(q: Queue, id: DeliveryId, now: int): Queue
    requires id in q.rows
  {
    var intent := q.rows[id].intent;
    var sid := intent.sessionId;
    q.(jobs := q.jobs[id := JobFromRow(id, q.rows[id], now)],
       ordering := if sid == NO_SESSION then q.ordering else q.ordering[(sid, id) := intent.sequence],
       seqs := if sid != NO_SESSION && (sid !in q.seqs || q.seqs[sid] < intent.sequence)
               then q.seqs[sid := intent.sequence] else q.seqs,
       scheduled := q.scheduled[id := now])
  }

  /** The session entry a revived delivery gets back. */
  predicate RevivedEntry(q: Queue, ids: set<DeliveryId>, k: (SessionId, DeliveryId))
    requires ids <= q.rows.Keys
  {
    k.1 in ids && k.0 != NO_SESSION && q.rows[k.1].intent.sessionId == k.0
  }

  /** Session counters move only up, only as far as a revived sequence, and end ahead of every revived sequence. */
  ghost predicate CountersRaised(q: Queue, ids: set<DeliveryId>, seqs: map<SessionId, nat>)
    requires ids <= q.rows.Keys
  {
    && (forall sid :: sid in q.seqs ==> sid in seqs && q.seqs[sid] <= seqs[sid])
    && (forall sid :: sid in seqs ==>
          || (sid in q.seqs && seqs[sid] == q.seqs[sid])
          || (exists id :: RevivedEntry(q, ids, (sid, id)) && seqs[sid] == q.rows[id].intent.sequence))
    && (forall id :: id in ids && q.rows[id].intent.sessionId != NO_SESSION ==>
          q.rows[id].intent.sessionId in seqs && q.rows[id].intent.sequence <= seqs[q.rows[id].intent.sessionId])
  }

  ghost predicate JobsRebuilt(q: Queue, ids: set<DeliveryId>, now: int, jobs: map<DeliveryId, Job>)
    requires ids <= q.rows.Keys
  {
    && (forall id :: id in jobs <==> id in q.jobs || id in ids)
    && forall id :: id in jobs ==> jobs[id] == if id in ids then JobFromRow(id, q.rows[id], now) else q.jobs[id]
  }

  ghost predicate ScheduleRebuilt(q: Queue, ids: set<DeliveryId>, now: int, scheduled: map<DeliveryId, int>) {
    && (forall id :: id in scheduled <==> id in q.scheduled || id in ids)
    && forall id :: id in scheduled ==> scheduled[id] == if id in ids then now else q.scheduled[id]
  }

  ghost predicate OrderRebuilt(q: Queue, ids: set<DeliveryId>, ordering: map<(SessionId, DeliveryId), nat>)
    requires ids <= q.rows.Keys
  {
    && (forall k :: k in ordering <==> k in q.ordering || RevivedEntry(q, ids, k))
    && (forall k :: k in ordering ==>
         ordering[k] == if RevivedEntry(q, ids, k) then q.rows[k.1].intent.sequence else q.ordering[k])
  }

  /** q' is q with exactly the deliveries in `ids` rebuilt from their rows. */
  ghost predicate RevivedAmong(q: Queue, ids: set<DeliveryId>, now: int, q': Queue)
    requires ids <= q.rows.Keys
  {
    && q' == q.(jobs := q'.jobs, scheduled := q'.scheduled, ordering := q'.ordering, seqs := q'.seqs)
    && JobsRebuilt(q, ids, now, q'.jobs)
    && ScheduleRebuilt(q, ids, now, q'.scheduled)
    && OrderRebuilt(q, ids, q'.ordering)
    && CountersRaised(q, ids, q'.seqs)
  }

  /** What a recovery sweep run as one step does: it rebuilds exactly the open deliveries that have no job. */
  ghost predicate IsRecovery(q: Queue, now: int, q': Queue) {
    RevivedAmong(q, OrphanIds(q), now, q')
  }
}
