/** The queue service as its methods update it (src/webhook/webhook-queue.service.ts). */
module WebhookQueue {
  import opened Options
  import opened WebhookConstants
  import opened WebhookQueueState

  // ---------------------------------------------------------------- the candidate sort

  function Insert(jobs: map<DeliveryId, Job>, id: DeliveryId, ids: seq<DeliveryId>): (r: seq<DeliveryId>)
    requires id in jobs && id !in ids && Distinct(ids) && (forall x :: x in ids ==> x in jobs) && InOrder(jobs, ids)
    ensures |r| == |ids| + 1 && Distinct(r)
    ensures forall x :: x in r <==> x == id || x in ids
    ensures InOrder(jobs, r)
  {
    if ids == [] then [id]
    else if Compare(jobs[id], jobs[ids[0]]) <= 0 then [id] + ids
    else
      var rest := Insert(jobs, id, ids[1..]);
      assert forall k :: 0 <= k < |rest| ==> rest[k] in rest;
      [ids[0]] + rest
  }

  /** `candidates.sort(...)`: an insertion sort, stable like the library's. */
  function SortCandidates(jobs: map<DeliveryId, Job>, ids: seq<DeliveryId>): (r: seq<DeliveryId>)
    requires Distinct(ids) && forall x :: x in ids ==> x in jobs
    ensures |r| == |ids| && Distinct(r)
    ensures forall x :: x in r <==> x in ids
    ensures InOrder(jobs, r)
    ensures forall i, j :: 0 <= i < j < |r| ==>
      var a, b := jobs[r[i]], jobs[r[j]];
      || a.intent.priority < b.intent.priority
      || (a.intent.priority == b.intent.priority && a.intent.sequence < b.intent.sequence)
      || (a.intent.priority == b.intent.priority && a.intent.sequence == b.intent.sequence
          && a.availableAt <= b.availableAt)
  {
    if ids == [] then [] else Insert(jobs, ids[0], SortCandidates(jobs, ids[1..]))
  }

  // ---------------------------------------------------------------- the service

  class WebhookQueueService {
    const maxConcurrency: int

    var scheduled: map<DeliveryId, int>
    var ordering: map<(SessionId, DeliveryId), nat>
    var jobs: map<DeliveryId, Job>
    var seqs: map<SessionId, nat>
    var rows: map<DeliveryId, Row>
    var deadLetters: map<DeliveryId, DeadLetter>
    var ticking: bool
    var active: int
    var processing: set<DeliveryId>
    var inflightSessions: set<SessionId>

    /** A worker starts idle on whatever Redis and Postgres hold. */
    constructor (maxConcurrency: int, stores: Queue)
      ensures this.maxConcurrency == maxConcurrency && !ticking
      ensures State() == stores.(active := 0, processing := {}, inflightSessions := {})
    {
      this.maxConcurrency := maxConcurrency;
      scheduled, ordering, jobs, seqs := stores.scheduled, stores.ordering, stores.jobs, stores.seqs;
      rows, deadLetters := stores.rows, stores.deadLetters;
      ticking, active, processing, inflightSessions := false, 0, {}, {};
    }

    function State(): Queue
      reads this
    {
      Queue(scheduled, ordering, jobs, seqs, rows, deadLetters, active, processing, inflightSessions)
    }

    /** `id` is the UUID drawn for the delivery. */
    method Enqueue(params: EnqueueParams, id: DeliveryId, at: EnqueueClock) returns (deliveryId: DeliveryId)
      requires id !in rows
      modifies this
      ensures deliveryId == id && ticking == old(ticking)
      ensures State() == Enqueued(old(State()), params, id, at)
    {
      var sessionId := SessionOf(params);
      var sequence := 0;
      if sessionId != NO_SESSION {
        sequence := if sessionId in seqs then seqs[sessionId] + 1 else 1;
        seqs := seqs[sessionId := sequence];
      }
      var intent := Intent(params.merchantId, sessionId, params.event, params.body, sequence,
        PriorityFor(params.event));
      rows := rows[id := Row(intent, at.createdAt, Pending, 0, [], None, None, None)];
      var job := Job(id, intent, at.timestamp, 0, at.now);
      jobs := jobs[job.id := job];
      if sessionId != NO_SESSION {
        ordering := ordering[(sessionId, job.id) := sequence];
      }
      scheduled := scheduled[job.id := at.now];
      deliveryId := id;
    }

    /** The scan half of a pass: due jobs in whatever order Redis lists them, those that may run collected. */
    method Scan(now: int) returns (candidates: seq<DeliveryId>)
      requires Keyed(jobs)
      modifies this`scheduled
      ensures scheduled == old(scheduled) - StaleIds(old(State()), now)
      ensures Distinct(candidates)
      ensures forall id :: id in candidates <==> id in EligibleIds(old(State()), now)
    {
      ghost var q := State();
      candidates := [];
      var todo := set id | id in scheduled.Keys && scheduled[id] <= now;
      ghost var due := todo;
      while todo != {}
        invariant todo <= due
        invariant scheduled == q.scheduled - (StaleIds(q, now) - todo)
        invariant Distinct(candidates)
        invariant forall id :: id in candidates <==> id in EligibleIds(q, now) && id !in todo
        decreases todo
      {
        var jobId :| jobId in todo;
        todo := todo - {jobId};
        if jobId !in processing {
          if jobId !in jobs {
            scheduled := scheduled - {jobId};
          } else {
            var job := jobs[jobId];
            if job.intent.sessionId == NO_SESSION
            || (job.intent.sessionId !in inflightSessions && IsHead(ordering, job.intent.sessionId, job.id)) {
              candidates := candidates + [job.id];
            }
          }
        }
      }
    }

    /** The dispatch half: candidates in order, while there is room and their session is idle. */
    method DispatchInOrder(candidates: seq<DeliveryId>, capacity: nat, ghost now: int) returns (picked: seq<DeliveryId>)
      requires Keyed(jobs) && Distinct(candidates)
      requires forall k :: 0 <= k < |candidates| ==> Eligible(State(), now, candidates[k])
      modifies this`processing, this`inflightSessions, this`active
      ensures picked == candidates[..Min(capacity, |candidates|)]
      ensures forall id :: id in picked ==> id in jobs
      ensures State() == Dispatch(old(State()), picked, {})
    {
      ghost var q := State();
      picked := [];
      var i := 0;
      while i < |candidates| && |picked| < capacity
        invariant 0 <= i <= |candidates| && i <= capacity
        invariant picked == candidates[..i]
        invariant processing == q.processing + AsSet(picked)
        invariant inflightSessions == q.inflightSessions + SessionsOf(q.jobs, picked)
        invariant active == q.active + |picked|
      {
        var job := jobs[candidates[i]];
        HeadsDiffer(q, now, candidates, i);
        if job.intent.sessionId == NO_SESSION || job.intent.sessionId !in inflightSessions {
          processing := processing + {job.id};
          if job.intent.sessionId != NO_SESSION {
            inflightSessions := inflightSessions + {job.intent.sessionId};
          }
          active := active + 1;
          picked := picked + [job.id];
        }
        i := i + 1;
      }
    }

    method Tick(now: int) returns (picked: seq<DeliveryId>)
      requires Keyed(jobs)
      modifies this`scheduled, this`ticking, this`processing, this`inflightSessions, this`active
      ensures old(ticking) ==> picked == [] && State() == old(State()) && ticking
      ensures !old(ticking) ==> IsTick(old(State()), maxConcurrency, now, picked, State()) && !ticking
      ensures forall i, j :: 0 <= i < j < |picked| ==>
        && picked[i] in jobs && picked[j] in jobs
        && var a, b := jobs[picked[i]], jobs[picked[j]];
          || a.intent.priority < b.intent.priority
          || (a.intent.priority == b.intent.priority && a.intent.sequence < b.intent.sequence)
          || (a.intent.priority == b.intent.priority && a.intent.sequence == b.intent.sequence
              && a.availableAt <= b.availableAt)
    {
      picked := [];
      if ticking {
        return;
      }
      ticking := true;
      var capacity := maxConcurrency - active;
      if capacity > 0 {
        ghost var q := State();
        var candidates := Scan(now);
        candidates := SortCandidates(jobs, candidates);
        EligibleByIndex(q, now, candidates);
        hide Eligible, IsTick, EligibleIds;
        picked := DispatchInOrder(candidates, capacity, now);
        BestPrefix(q, maxConcurrency, now, candidates, picked);
      }
      ticking := false;
    }

    // ---------------------------------------------------------------- processing

    method RemoveTraces(job: Job)
      modifies this`scheduled, this`ordering, this`jobs
      ensures State() == Cleanup(old(State()), job)
    {
      scheduled := scheduled - {job.id};
      if job.intent.sessionId != NO_SESSION {
        ordering := ordering - {(job.intent.sessionId, job.id)};
      }
      jobs := jobs - {job.id};
    }

    method RecordAttempt(job: Job, status: DeliveryStatus, attempts: nat, entry: Attempt, nextRetryAt: Option<int>,
          now: int)
      modifies this`rows
      ensures State() == RecordDelivery(old(State()), job.id, status, attempts, entry, nextRetryAt, now)
    {
      if job.id in rows {
        var row := rows[job.id];
        var log := row.attemptLog + [entry];
        var deliveredAt := if status == Delivered then Some(now) else None;
        rows := rows[job.id := row.(status := status, attempts := attempts, responseStatus := entry.status,
                                    attemptLog := log, deliveredAt := deliveredAt, nextRetryAt := nextRetryAt)];
      }
    }

    /** The insert breaks the unique delivery id when there already is a dead letter: then nothing more is done. */
    method DeadLetterJob(job: Job, reason: Reason, lastEntry: Attempt)
      modifies this`deadLetters, this`scheduled, this`ordering, this`jobs
      ensures State() == if job.id in old(deadLetters) then old(State())
        else Cleanup(Bury(old(State()), job, reason, lastEntry), job)
    {
      if job.id !in deadLetters {
        var letter := if job.id in rows
          then DeadLetter(job.intent.merchantId, job.intent.sessionId, job.intent.event, rows[job.id].intent.data,
                          rows[job.id].attemptLog, reason, None)
          else DeadLetter(job.intent.merchantId, job.intent.sessionId, job.intent.event, "{}", [lastEntry], reason,
            None);
        deadLetters := deadLetters[job.id := letter];
        RemoveTraces(job);
      }
    }

    method Finally(job: Job)
      modifies this`inflightSessions, this`processing, this`active
      ensures State() == Release(old(State()), job)
    {
      if job.intent.sessionId != NO_SESSION {
        inflightSessions := inflightSessions - {job.intent.sessionId};
      }
      processing := processing - {job.id};
      active := Max(0, active - 1);
    }

    /** `hasTarget` and `result` stand for the merchant row and for the HTTP exchange. */
    method Process(job: Job, hasTarget: bool, result: DeliveryResult, now: int, rand: real)
      modifies this
      ensures State() == Processed(old(State()), job, hasTarget, result, now, rand) && ticking == old(ticking)
      ensures IsRandom(rand) && hasTarget && result.outcome == Retry && job.attempt + 1 < MAX_ATTEMPTS ==>
        job.id in scheduled && scheduled[job.id] > now && job.id in jobs
          && jobs[job.id].availableAt == scheduled[job.id]
    {
      DelayWithinRatioIfRandom(job.attempt + 1, rand);
      hide BackoffDelayMs;
      if !hasTarget {
        RemoveTraces(job);
        Finally(job);
        return;
      }
      var attemptNo := job.attempt + 1;
      var entry := Attempt(attemptNo, now, result.status, result.error);
      if result.outcome == Success {
        RecordAttempt(job, Delivered, attemptNo, entry, None, now);
        RemoveTraces(job);
      } else if result.outcome == Outcome.Dead {
        RecordAttempt(job, DeliveryStatus.Dead, attemptNo, entry, None, now);
        DeadLetterJob(job, Http4xx(result.status), entry);
      } else if attemptNo >= MAX_ATTEMPTS {
        RecordAttempt(job, DeliveryStatus.Dead, attemptNo, entry, None, now);
        DeadLetterJob(job, MaxAttempts, entry);
      } else {
        var availableAt := now + BackoffDelayMs(attemptNo, rand);
        RecordAttempt(job, Failed, attemptNo, entry, Some(availableAt), now);
        var next := job.(attempt := attemptNo, availableAt := availableAt);
        jobs := jobs[next.id := next];
        scheduled := scheduled[next.id := availableAt];
      }
      Finally(job);
    }

    /** `id` is the UUID drawn for the fresh delivery. */
    method RequeueDeadLetter(merchantId: MerchantId, deadLetterId: DeliveryId, id: DeliveryId, at: EnqueueClock,
          now: int)
      returns (newId: Option<DeliveryId>)
      requires id !in rows
      modifies this
      ensures ticking == old(ticking)
      ensures MayRequeue(old(State()), merchantId, deadLetterId) ==>
        newId == Some(id) && State() == Requeued(old(State()), deadLetterId, id, at, now)
      ensures !MayRequeue(old(State()), merchantId, deadLetterId) ==> newId == None && State() == old(State())
    {
      if deadLetterId !in deadLetters || deadLetters[deadLetterId].merchantId != merchantId {
        return None;
      }
      var dead := deadLetters[deadLetterId];
      var created := Enqueue(EnqueueParams(merchantId, dead.event, dead.data, Some(dead.sessionId)), id, at);
      deadLetters := deadLetters[deadLetterId := deadLetters[deadLetterId].(retriedAt := Some(now))];
      newId := Some(created);
    }

    // ---------------------------------------------------------------- crash recovery

    method ReviveFromRow(id: DeliveryId, now: int)
      requires id in rows
      modifies this`jobs, this`ordering, this`seqs, this`scheduled
      ensures State() == Revive(old(State()), id, now)
    {
      var row := rows[id];
      var sessionId := row.intent.sessionId;
      var job := Job(id, row.intent, row.createdAt, row.attempts, now);
      jobs := jobs[id := job];
      if sessionId != NO_SESSION {
        ordering := ordering[(sessionId, id) := job.intent.sequence];
        if sessionId !in seqs || seqs[sessionId] < job.intent.sequence {
          seqs := seqs[sessionId := job.intent.sequence];
        }
      }
      scheduled := scheduled[id := job.availableAt];
    }

    /** Rows come in whatever order the database lists them. */
    method RecoverPending(now: int) returns (revived: nat)
      modifies this`jobs, this`ordering, this`seqs, this`scheduled
      ensures IsRecovery(old(State()), now, State())
      ensures revived == |OrphanIds(old(State()))|
    {
      hide RevivedAmong;
      ghost var q, done := State(), {};
      revived := 0;
      var todo := set id | id in rows.Keys && Open(rows[id].status);
      NothingRevived(q, now);
      while todo != {}
        invariant forall id :: id in todo ==> id in rows && Open(rows[id].status) && id !in done
        invariant forall id :: id in done ==> id in OrphanIds(q)
        invariant forall id :: id in OrphanIds(q) ==> id in todo || id in done
        invariant forall id :: id in jobs <==> id in q.jobs || id in done
        invariant RevivedAmong(q, done, now, State())
        invariant revived == |done|
        decreases todo
      {
        var id :| id in todo;
        todo := todo - {id};
        if id !in jobs {
          OneMoreRevived(q, done, id, now, State());
          ReviveFromRow(id, now);
          revived := revived + 1;
          done := done + {id};
        }
      }
      assert done == OrphanIds(q);
    }
  }

  lemma DelayWithinRatioIfRandom(attempt: int, rand: real)
    ensures IsRandom(rand) ==> BackoffDelayMs(attempt, rand) > 0
  {
    if IsRandom(rand) {
      DelayWithinRatio(attempt, rand);
    }
  }

  /** Removing stale schedule entries leaves the candidates eligible. */
  lemma EligibleByIndex(q: Queue, now: int, candidates: seq<DeliveryId>)
    requires forall id :: id in candidates ==> id in EligibleIds(q, now)
    ensures forall k :: 0 <= k < |candidates| ==>
      Eligible(q.(scheduled := q.scheduled - StaleIds(q, now)), now, candidates[k])
  {
    assert forall k :: 0 <= k < |candidates| ==> candidates[k] in candidates;
  }

  lemma PrefixIsBest(jobs: map<DeliveryId, Job>, ids: seq<DeliveryId>, n: nat, a: DeliveryId, b: DeliveryId)
    requires n <= |ids| && a in ids[..n] && b in ids[n..]
    requires (forall id :: id in ids ==> id in jobs) && InOrder(jobs, ids)
    ensures a in jobs && b in jobs && Compare(jobs[a], jobs[b]) <= 0
  {
    var i :| 0 <= i < n && ids[i] == a;
    var j :| n <= j < |ids| && ids[j] == b;
  }

  /** Dispatching as long a prefix of the sorted candidates as there is room for is a tick. */
  lemma BestPrefix(q: Queue, maxConcurrency: int, now: int, candidates: seq<DeliveryId>, picked: seq<DeliveryId>)
    requires maxConcurrency > q.active && Distinct(candidates)
    requires forall id :: id in candidates <==> id in EligibleIds(q, now)
    requires InOrder(q.jobs, candidates)
    requires picked == candidates[..Min(maxConcurrency - q.active, |candidates|)]
    ensures IsTick(q, maxConcurrency, now, picked, Dispatch(q, picked, StaleIds(q, now)))
  {
    assert AsSet(candidates) == EligibleIds(q, now);
    DistinctCount(candidates);
    var n := |picked|;
    assert candidates == candidates[..n] + candidates[n..];
    assert forall id :: id in picked ==> id in candidates && id in EligibleIds(q, now);
    forall a, b | a in picked && b in EligibleIds(q, now) && b !in picked
      ensures a in q.jobs && b in q.jobs && Compare(q.jobs[a], q.jobs[b]) <= 0
    {
      assert b in candidates;
      PrefixIsBest(q.jobs, candidates, n, a, b);
    }
  }

  /** Two candidates are never heads of one session: re-checking contention skips nothing. */
  lemma HeadsDiffer(q: Queue, now: int, ids: seq<DeliveryId>, i: nat)
    requires Keyed(q.jobs) && Distinct(ids) && i < |ids|
    requires forall k :: 0 <= k < |ids| ==> Eligible(q, now, ids[k])
    ensures forall k :: 0 <= k < |ids| ==> ids[k] in q.jobs
    ensures var sid := q.jobs[ids[i]].intent.sessionId;
      sid != NO_SESSION ==> sid !in q.inflightSessions + SessionsOf(q.jobs, ids[..i])
  {
    var sid := q.jobs[ids[i]].intent.sessionId;
    forall k | 0 <= k < i && sid != NO_SESSION ensures q.jobs[ids[k]].intent.sessionId != sid {
      if q.jobs[ids[k]].intent.sessionId == sid {
        OneHead(q.ordering, sid, ids[k], ids[i]);
      }
    }
  }

  lemma NothingRevived(q: Queue, now: int)
    ensures RevivedAmong(q, {}, now, q)
  {
  }

  /** Where a counter of the sweep comes from. */
  ghost predicate CounterFrom(q: Queue, ids: set<DeliveryId>, seqs: map<SessionId, nat>, sid: SessionId)
    requires ids <= q.rows.Keys && sid in seqs
  {
    || (sid in q.seqs && seqs[sid] == q.seqs[sid])
    || (exists x :: RevivedEntry(q, ids, (sid, x)) && seqs[sid] == q.rows[x].intent.sequence)
  }

  lemma CounterStep(q: Queue, ids: set<DeliveryId>, id: DeliveryId, before: map<SessionId, nat>,
        seqs: map<SessionId, nat>, sid: SessionId)
    requires ids <= q.rows.Keys && id in q.rows && sid in seqs
    requires (sid in before && seqs[sid] == before[sid] && CounterFrom(q, ids, before, sid))
      || (q.rows[id].intent.sessionId == sid != NO_SESSION && seqs[sid] == q.rows[id].intent.sequence)
    ensures CounterFrom(q, ids + {id}, seqs, sid)
  {
    if q.rows[id].intent.sessionId == sid != NO_SESSION && seqs[sid] == q.rows[id].intent.sequence {
      assert RevivedEntry(q, ids + {id}, (sid, id));
    } else if !(sid in q.seqs && seqs[sid] == q.seqs[sid]) {
      var x :| RevivedEntry(q, ids, (sid, x)) && before[sid] == q.rows[x].intent.sequence;
      assert RevivedEntry(q, ids + {id}, (sid, x));
    }
  }

  lemma CountersStep(q: Queue, ids: set<DeliveryId>, id: DeliveryId, now: int, before: Queue)
    requires ids <= q.rows.Keys && id in q.rows && before.rows == q.rows
    requires CountersRaised(q, ids, before.seqs)
    ensures CountersRaised(q, ids + {id}, Revive(before, id, now).seqs)
  {
    var seqs := Revive(before, id, now).seqs;
    forall sid | sid in seqs ensures CounterFrom(q, ids + {id}, seqs, sid) {
      assert sid in before.seqs ==> CounterFrom(q, ids, before.seqs, sid);
      hide CounterFrom, RevivedEntry;
      CounterStep(q, ids, id, before.seqs, seqs, sid);
    }
    hide RevivedEntry;
  }

  lemma OrderStep(q: Queue, ids: set<DeliveryId>, id: DeliveryId, now: int, before: Queue)
    requires ids <= q.rows.Keys && id in q.rows && before.rows == q.rows
    requires OrderRebuilt(q, ids, before.ordering)
    ensures OrderRebuilt(q, ids + {id}, Revive(before, id, now).ordering)
  {
    var own := (q.rows[id].intent.sessionId, id);
    assert forall k :: RevivedEntry(q, ids + {id}, k) <==> RevivedEntry(q, ids, k) || (k == own && own.0 != NO_SESSION);
  }

  lemma JobsStep(q: Queue, ids: set<DeliveryId>, id: DeliveryId, now: int, jobs: map<DeliveryId, Job>)
    requires ids <= q.rows.Keys && id in q.rows
    requires JobsRebuilt(q, ids, now, jobs)
    ensures JobsRebuilt(q, ids + {id}, now, jobs[id := JobFromRow(id, q.rows[id], now)])
  {
  }

  lemma ScheduleStep(q: Queue, ids: set<DeliveryId>, id: DeliveryId, now: int, scheduled: map<DeliveryId, int>)
    requires ScheduleRebuilt(q, ids, now, scheduled)
    ensures ScheduleRebuilt(q, ids + {id}, now, scheduled[id := now])
  {
  }

  lemma OneMoreRevived(q: Queue, ids: set<DeliveryId>, id: DeliveryId, now: int, before: Queue)
    requires ids <= q.rows.Keys && id in q.rows
    requires RevivedAmong(q, ids, now, before)
    ensures id in before.rows && RevivedAmong(q, ids + {id}, now, Revive(before, id, now))
  {
    hide JobsRebuilt, ScheduleRebuilt, OrderRebuilt, CountersRaised;
    JobsStep(q, ids, id, now, before.jobs);
    ScheduleStep(q, ids, id, now, before.scheduled);
    OrderStep(q, ids, id, now, before);
    CountersStep(q, ids, id, now, before);
  }
}
