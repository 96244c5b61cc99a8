/** The recovery sweep of the queue, run as one step after Redis data was lost. */
module WebhookQueueRecovery {
  import opened Options
  import opened WebhookConstants
  import opened WebhookQueueState
  import opened WebhookQueueRuns
  import opened WebhookQueueOrder
  import opened WebhookQueueLedger

  /** The sweep adds exactly the open deliveries without a job, with the id, content and attempt count of their rows,
      makes them due at once, and leaves every existing job, row, dead letter and worker field alone. */
  lemma SweepRevivesExactly(q: Queue, now: int, q': Queue, id: DeliveryId)
    requires IsRecovery(q, now, q')
    ensures id in q'.jobs && id !in q.jobs <==> id in q.rows && Open(q.rows[id].status) && id !in q.jobs
    ensures id in q.jobs ==> id in q'.jobs && q'.jobs[id] == q.jobs[id]
    ensures id in q'.jobs && id !in q.jobs ==>
      && q'.jobs[id] == Job(id, q.rows[id].intent, q.rows[id].createdAt, q.rows[id].attempts, now)
      && id in q'.scheduled && q'.scheduled[id] == now && InSession(q', id)
    ensures q'.rows == q.rows && q'.deadLetters == q.deadLetters && q'.processing == q.processing
  {
    if id in OrphanIds(q) && q.rows[id].intent.sessionId != NO_SESSION {
      assert RevivedEntry(q, OrphanIds(q), (q.rows[id].intent.sessionId, id));
    }
  }

  lemma RevivingNothing(q: Queue, now: int, q': Queue)
    requires RevivedAmong(q, {}, now, q')
    ensures q'.jobs == q.jobs && q'.scheduled == q.scheduled && q'.ordering == q.ordering && q'.seqs == q.seqs
      && q' == q
  {
    assert forall k :: !RevivedEntry(q, {}, k);
    assert q'.jobs == q.jobs && q'.scheduled == q.scheduled;
    assert q'.ordering == q.ordering;
    assert q'.seqs == q.seqs;
  }

  lemma NoOrphansLeft(q: Queue, now: int, q': Queue)
    requires IsRecovery(q, now, q')
    ensures OrphanIds(q') == {}
  {
  }

  /** A second sweep finds nothing to do. */
  lemma SweepIsIdempotent(q: Queue, now: int, q': Queue, later: int, q'': Queue)
    requires IsRecovery(q, now, q') && IsRecovery(q', later, q'')
    ensures OrphanIds(q') == {} && q'' == q'
  {
    hide RevivedAmong;
    NoOrphansLeft(q, now, q');
    RevivingNothing(q', later, q'');
  }

  /** If no stored sequence was ahead of its counter before, none is ahead afterwards: the next one allocated exceeds
      them all. */
  lemma NextSequenceIsAhead(q: Queue, now: int, q': Queue, id: DeliveryId)
    requires IsRecovery(q, now, q')
    requires forall x :: x in q.jobs && q.jobs[x].intent.sessionId != NO_SESSION ==>
      q.jobs[x].intent.sessionId in q.seqs && q.jobs[x].intent.sequence <= q.seqs[q.jobs[x].intent.sessionId]
    requires id in q'.jobs && q'.jobs[id].intent.sessionId != NO_SESSION
    ensures NextSequence(q', q'.jobs[id].intent.sessionId) > q'.jobs[id].intent.sequence
  {
  }

  // ---------------------------------------------------------------- losing Redis

  function WithoutRedis(q: Queue): Queue {
    q.(scheduled := map[], ordering := map[], jobs := map[], seqs := map[])
  }

  function WithoutHashes(q: Queue): Queue {
    q.(jobs := map[])
  }

  /** Losing all of Redis, or all job hashes, at any point of any run and sweeping once brings back exactly the open
      deliveries, each fully indexed, due at once and with the attempts its row counts, and every session's next
      sequence above all of its own. */
  lemma SweepRebuildsOpen(lost: Queue, now: int, q': Queue, id: DeliveryId)
    requires IsRecovery(lost, now, q') && lost.jobs == map[]
    ensures id in q'.jobs <==> id in lost.rows && Open(lost.rows[id].status)
    ensures id in q'.jobs ==>
      && q'.jobs[id].attempt == lost.rows[id].attempts && q'.jobs[id].intent == lost.rows[id].intent
      && q'.jobs[id].availableAt == now && id in q'.rows && Traced(q', id, q'.jobs[id])
    ensures id in q'.jobs && q'.jobs[id].intent.sessionId != NO_SESSION ==>
      NextSequence(q', q'.jobs[id].intent.sessionId) > q'.jobs[id].intent.sequence
  {
    hide IsRecovery, Traced;
    SweepRevivesExactly(lost, now, q', id);
    if id in q'.jobs {
      RevivedIsTraced(lost, now, q', id);
      if q'.jobs[id].intent.sessionId != NO_SESSION {
        NextSequenceIsAhead(lost, now, q', id);
      }
    }
  }

  /** In a run that cuts no call short, between two passes, these are exactly the live deliveries, at the attempt they
      had reached, and those dropped for want of a target, whose rows were never closed. */
  lemma SweepAfterLoss(maxConcurrency: int, ms: seq<Machine>, steps: seq<Step>, i: nat, lost: Queue, now: int,
        q': Queue, id: DeliveryId)
    requires IsHarmlessRun(maxConcurrency, ms, steps) && i < |ms| && ms[i].flights == map[]
    requires lost == WithoutRedis(ms[i].q) || lost == WithoutHashes(ms[i].q)
    requires IsRecovery(lost, now, q')
    ensures id in q'.jobs <==> id in ms[i].q.rows && (Live(ms[i], id) || WasDropped(ms[i], id))
    ensures id in q'.jobs ==>
      && q'.jobs[id].attempt == |ms[i].q.rows[id].attemptLog| && q'.jobs[id].intent == ms[i].q.rows[id].intent
      && id in q'.rows && Traced(q', id, q'.jobs[id])
    ensures id in ms[i].q.rows && Live(ms[i], id) ==>
      q'.jobs[id].attempt == ms[i].q.jobs[id].attempt && q'.jobs[id].intent == ms[i].q.jobs[id].intent
    ensures id in q'.jobs && q'.jobs[id].intent.sessionId != NO_SESSION ==>
      NextSequence(q', q'.jobs[id].intent.sessionId) > q'.jobs[id].intent.sequence
  {
    RunKeepsLedger(maxConcurrency, ms, steps);
    var m := ms[i];
    hide Ledger, IsRecovery, Live, WasDropped, Traced, InSession;
    SweepRebuildsOpen(lost, now, q', id);
    if id in m.q.rows {
      AtRestWhenIdle(m, id);
    }
  }

  /** What losing all of Redis does to the numbering of a session: the counter resumes right above its open
      deliveries. */
  lemma NextSequenceAfterLoss(q: Queue, now: int, q': Queue, sid: SessionId, bound: nat)
    requires IsRecovery(WithoutRedis(q), now, q') && sid != NO_SESSION && bound > 0
    ensures NextSequence(q', sid) > bound <==>
      exists x :: x in q.rows && Open(q.rows[x].status) && q.rows[x].intent.sessionId == sid
        && q.rows[x].intent.sequence >= bound
  {
    var lost := WithoutRedis(q);
    if sid in q'.seqs {
      var x :| RevivedEntry(lost, OrphanIds(lost), (sid, x)) && q'.seqs[sid] == lost.rows[x].intent.sequence;
      assert x in OrphanIds(lost);
    }
    forall x | x in q.rows && Open(q.rows[x].status) && q.rows[x].intent.sessionId == sid
      ensures x in OrphanIds(lost)
    {
    }
  }

  /** So the next delivery of a session comes after all requests made for it if and only if each of them is matched by
      an open delivery with as high a sequence; in particular a session whose deliveries are all closed is numbered from
      one again. */
  lemma OrderAfterLossIff(m: Machine, now: int, q': Queue, sid: SessionId)
    requires IsRecovery(WithoutRedis(m.q), now, q') && sid != NO_SESSION
    ensures (forall i :: 0 <= i < |m.sent| && m.sent[i].intent.sessionId == sid ==>
      m.sent[i].intent.sequence < NextSequence(q', sid))
      <==> (forall i :: 0 <= i < |m.sent| && m.sent[i].intent.sessionId == sid ==>
        SomeOpenAt(m.q, sid, m.sent[i].intent.sequence))
    ensures (forall x :: x in m.q.rows && m.q.rows[x].intent.sessionId == sid ==> !Open(m.q.rows[x].status)) ==>
      NextSequence(q', sid) == 1
  {
    hide IsRecovery;
    forall i | 0 <= i < |m.sent| && m.sent[i].intent.sessionId == sid
      ensures m.sent[i].intent.sequence < NextSequence(q', sid) <==> SomeOpenAt(m.q, sid, m.sent[i].intent.sequence)
    {
      if m.sent[i].intent.sequence > 0 {
        NextSequenceAfterLoss(m.q, now, q', sid, m.sent[i].intent.sequence);
      }
    }
    NextSequenceAfterLoss(m.q, now, q', sid, 1);
  }

  /** An open delivery of the session has this sequence or a higher one; zero is no sequence of a session. */
  predicate SomeOpenAt(q: Queue, sid: SessionId, sequence: nat) {
    || sequence == 0
    || exists x ::
         && x in q.rows && Open(q.rows[x].status)
         && q.rows[x].intent.sessionId == sid && q.rows[x].intent.sequence >= sequence
  }

  lemma AtRestWhenIdle(m: Machine, id: DeliveryId)
    requires Ledger(m) && m.flights == map[] && id in m.q.rows
    ensures Open(m.q.rows[id].status) <==> Live(m, id) || WasDropped(m, id)
    ensures Live(m, id) ==>
      id in m.q.jobs && m.q.jobs[id].attempt == m.q.rows[id].attempts && m.q.jobs[id].intent == m.q.rows[id].intent
    ensures m.q.rows[id].attempts == |m.q.rows[id].attemptLog|
  {
    assert Kept(m, id);
    if Live(m, id) {
      assert Fits(m.q.jobs[id], id, Intents(m.q.rows), m.stamps);
    }
  }

  lemma RevivedIsTraced(lost: Queue, now: int, q': Queue, id: DeliveryId)
    requires IsRecovery(lost, now, q') && id in lost.rows && Open(lost.rows[id].status) && id !in lost.jobs
    ensures id in q'.rows && id in q'.jobs && Traced(q', id, q'.jobs[id])
  {
    SweepRevivesExactly(lost, now, q', id);
  }

  /** A revived delivery is requested with the same timestamp, and so the same signature, exactly when the database
      happened to stamp its row with the time that was signed at enqueue. */
  lemma RevivedRequestIsSameIff(q: Queue, now: int, q': Queue, id: DeliveryId, original: Request)
    requires IsRecovery(q, now, q') && id in OrphanIds(q)
    requires original.id == id && original.intent == q.rows[id].intent
    ensures id in q'.jobs && (RequestOf(q'.jobs[id]) == original <==> q.rows[id].createdAt == original.timestamp)
  {
  }

  /** The sweep makes an open delivery dispatchable again exactly when its job hash is missing or it was scheduled
      anyway. */
  lemma SweepSchedulesIff(q: Queue, now: int, q': Queue, id: DeliveryId)
    requires IsRecovery(q, now, q') && id in q.rows && Open(q.rows[id].status)
    ensures id in q'.scheduled <==> id in q.scheduled || id !in q.jobs
  {
  }

  /** So an enqueue cut short between the job hash and the schedule entry is not repaired: the next pass cannot pick it
      either. */
  lemma HalfEnqueuedIsNotRepaired(q: Queue, now: int, q': Queue, id: DeliveryId, maxConcurrency: int, later: int,
        picked: seq<DeliveryId>, q'': Queue)
    requires IsRecovery(q, now, q') && IsTick(q', maxConcurrency, later, picked, q'')
    requires id in q.rows && id in q.jobs && id !in q.scheduled
    ensures id !in q'.scheduled && id !in picked
  {
  }
}
