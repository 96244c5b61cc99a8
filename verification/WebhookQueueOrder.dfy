/** What every run of the queue keeps, with failures, crashes and restarts at any command: each job in its turn. */
module WebhookQueueOrder {
  import opened Options
  import opened WebhookConstants
  import opened WebhookQueueState
  import opened WebhookQueueRuns

  function Intents(rows: map<DeliveryId, Row>): map<DeliveryId, Intent> {
    map id | id in rows :: rows[id].intent
  }

  // ---------------------------------------------------------------- the invariant, part by part

  /** Within a session sequences are distinct, and none is ahead of the counter. */
  ghost predicate Numbered(intents: map<DeliveryId, Intent>, seqs: map<SessionId, nat>) {
    && (forall id :: id in intents && intents[id].sessionId != NO_SESSION ==>
          intents[id].sessionId in seqs && intents[id].sequence <= seqs[intents[id].sessionId])
    && (forall a, b ::
          (a in intents && b in intents && a != b && intents[a].sessionId == intents[b].sessionId != NO_SESSION) ==>
            intents[a].sequence != intents[b].sequence)
  }

  /** Session entries carry the sequence of their delivery. */
  ghost predicate Ranked(intents: map<DeliveryId, Intent>, ordering: map<(SessionId, DeliveryId), nat>) {
    forall sid, id :: (sid, id) in ordering ==>
      sid != NO_SESSION && id in intents && intents[id].sessionId == sid && intents[id].sequence == ordering[(sid, id)]
  }

  predicate Fits(job: Job, id: DeliveryId, intents: map<DeliveryId, Intent>, stamps: map<DeliveryId, int>) {
    id in intents && id in stamps && job.id == id && job.intent == intents[id] && job.timestamp == stamps[id]
  }

  /** Every copy of a job, stored or held by a worker, is of the delivery as it was enqueued. */
  ghost predicate FaithfulJobs(intents: map<DeliveryId, Intent>, stamps: map<DeliveryId, int>,
        jobs: map<DeliveryId, Job>) {
    forall id :: id in jobs ==> Fits(jobs[id], id, intents, stamps)
  }

  ghost predicate FaithfulFlights(intents: map<DeliveryId, Intent>, stamps: map<DeliveryId, int>,
        flights: map<DeliveryId, Flight>) {
    forall id :: id in flights ==>
      && Fits(flights[id].job, id, intents, stamps)
      && (flights[id].phase.Rewriting? ==> Fits(flights[id].phase.next, id, intents, stamps))
  }

  predicate HasPlace(intents: map<DeliveryId, Intent>, ordering: map<(SessionId, DeliveryId), nat>, id: DeliveryId)
    requires id in intents
  {
    intents[id].sessionId != NO_SESSION ==> (intents[id].sessionId, id) in ordering
  }

  /** Only a job with a place in its session is scheduled. */
  ghost predicate Scheduled(intents: map<DeliveryId, Intent>, ordering: map<(SessionId, DeliveryId), nat>,
        scheduled: map<DeliveryId, int>) {
    forall id :: id in scheduled ==> id in intents && HasPlace(intents, ordering, id)
  }

  /** Delivered, dead-lettered, or dropped. */
  predicate Closed(rows: map<DeliveryId, Row>, dropped: set<DeliveryId>, id: DeliveryId)
    requires id in rows
  {
    !Open(rows[id].status) || id in dropped
  }

  /** A place is given up only once the delivery is closed. */
  ghost predicate ClosedInTurn(rows: map<DeliveryId, Row>, ordering: map<(SessionId, DeliveryId), nat>,
        dropped: set<DeliveryId>) {
    forall id :: id in rows && !HasPlace(Intents(rows), ordering, id) ==> Closed(rows, dropped, id)
  }

  predicate HoldsPlace(phase: Phase) {
    !phase.Deleting? && !phase.Finishing?
  }

  /** A job in progress is first in its session until it gives up its place. */
  ghost predicate InFront(intents: map<DeliveryId, Intent>, ordering: map<(SessionId, DeliveryId), nat>,
        flights: map<DeliveryId, Flight>) {
    forall id :: id in flights && HoldsPlace(flights[id].phase) ==>
      id in intents && (intents[id].sessionId != NO_SESSION ==> IsHead(ordering, intents[id].sessionId, id))
  }

  /** Clean-up starts only on closed deliveries, and takes the schedule entry before the place. */
  ghost predicate CleanedInTurn(
      rows: map<DeliveryId, Row>, scheduled: map<DeliveryId, int>, dropped: set<DeliveryId>,
        flights: map<DeliveryId, Flight>)
  {
    forall id :: id in flights ==>
      && (flights[id].phase.Burying? || flights[id].phase.Unscheduling? || flights[id].phase.Unordering? ==>
            id in rows && Closed(rows, dropped, id))
      && (flights[id].phase.Unordering? ==> id !in scheduled)
  }

  /** The worker's books are exact: one job per session, counted once each. */
  ghost predicate Booked(active: int, processing: set<DeliveryId>, inflight: set<SessionId>,
        flights: map<DeliveryId, Flight>) {
    && processing == flights.Keys
    && active == |processing|
    && (forall id :: id in flights && flights[id].job.intent.sessionId != NO_SESSION ==>
         flights[id].job.intent.sessionId in inflight)
    && (forall sid :: sid in inflight ==>
         sid != NO_SESSION && exists id :: id in flights && flights[id].job.intent.sessionId == sid)
    && (forall a, b ::
          (a in flights && b in flights && a != b
           && flights[a].job.intent.sessionId == flights[b].job.intent.sessionId) ==>
            flights[a].job.intent.sessionId == NO_SESSION)
  }

  /** Every request carries its delivery's content as it was enqueued. */
  ghost predicate SentFaithfully(intents: map<DeliveryId, Intent>, sent: seq<Request>) {
    forall i :: 0 <= i < |sent| ==> sent[i].id in intents && sent[i].intent == intents[sent[i].id]
  }

  ghost predicate Sound(m: Machine) {
    var q, intents := m.q, Intents(m.q.rows);
    && Numbered(intents, q.seqs)
    && Ranked(intents, q.ordering)
    && FaithfulJobs(intents, m.stamps, q.jobs)
    && FaithfulFlights(intents, m.stamps, m.flights)
    && Scheduled(intents, q.ordering, q.scheduled)
    && ClosedInTurn(q.rows, q.ordering, m.dropped)
    && InFront(intents, q.ordering, m.flights)
    && CleanedInTurn(q.rows, q.scheduled, m.dropped, m.flights)
    && Booked(q.active, q.processing, q.inflightSessions, m.flights)
    && SentFaithfully(intents, m.sent)
  }

  lemma SoundInitially()
    ensures Sound(InitialMachine())
  {
  }

  // ---------------------------------------------------------------- enqueue

  lemma IntentsAfterInsert(rows: map<DeliveryId, Row>, id: DeliveryId, row: Row)
    ensures Intents(rows[id := row]) == Intents(rows)[id := row.intent]
  {
  }

  lemma EnqueueNumbers(intents: map<DeliveryId, Intent>, seqs: map<SessionId, nat>, id: DeliveryId, intent: Intent)
    requires Numbered(intents, seqs) && id !in intents
    requires intent.sessionId != NO_SESSION ==>
      intent.sequence == if intent.sessionId in seqs then seqs[intent.sessionId] + 1 else 1
    ensures Numbered(intents[id := intent],
                     if intent.sessionId == NO_SESSION then seqs else seqs[intent.sessionId := intent.sequence])
  {
  }

  lemma EnqueueRanks(intents: map<DeliveryId, Intent>, ordering: map<(SessionId, DeliveryId), nat>, id: DeliveryId,
        intent: Intent)
    requires Ranked(intents, ordering) && id !in intents
    ensures Ranked(intents[id := intent],
                   if intent.sessionId == NO_SESSION then ordering
                     else ordering[(intent.sessionId, id) := intent.sequence])
  {
  }

  lemma EnqueuePlaces(intents: map<DeliveryId, Intent>, stamps: map<DeliveryId, int>, q: Queue,
                      params: EnqueueParams, id: DeliveryId, at: EnqueueClock)
    requires FaithfulJobs(intents, stamps, q.jobs) && Scheduled(intents, q.ordering, q.scheduled) && id !in intents
    ensures var q' := Enqueued(q, params, id, at);
      && FaithfulJobs(intents[id := q'.rows[id].intent], stamps[id := at.timestamp], q'.jobs)
      && Scheduled(intents[id := q'.rows[id].intent], q'.ordering, q'.scheduled)
  {
  }

  lemma EnqueueLeavesClosed(q: Queue, dropped: set<DeliveryId>, params: EnqueueParams, id: DeliveryId, at: EnqueueClock)
    requires ClosedInTurn(q.rows, q.ordering, dropped) && id !in q.rows
    ensures var q' := Enqueued(q, params, id, at); ClosedInTurn(q'.rows, q'.ordering, dropped)
  {
  }

  /** A later sequence joins behind everything in its session. */
  lemma JoinBehind(ordering: map<(SessionId, DeliveryId), nat>, sid: SessionId, head: DeliveryId,
        entry: (SessionId, DeliveryId), sequence: nat)
    requires IsHead(ordering, sid, head) && entry != (sid, head)
    requires entry.0 == sid ==> ordering[(sid, head)] < sequence
    ensures IsHead(ordering[entry := sequence], sid, head)
  {
    var after := ordering[entry := sequence];
    forall k | k in after.Keys && k.0 == sid ensures RanksBefore(after, sid, head, k.1) {
      if k != entry {
        assert k in ordering.Keys && k == (sid, k.1);
        assert RanksBefore(ordering, sid, head, k.1);
      }
    }
  }

  lemma EnqueueLeavesFront(intents: map<DeliveryId, Intent>, seqs: map<SessionId, nat>,
        ordering: map<(SessionId, DeliveryId), nat>,
                           flights: map<DeliveryId, Flight>, id: DeliveryId, intent: Intent)
    requires Numbered(intents, seqs) && Ranked(intents, ordering) && InFront(intents, ordering, flights)
      && id !in intents
    requires intent.sessionId != NO_SESSION && (intent.sessionId in seqs ==> seqs[intent.sessionId] < intent.sequence)
    ensures InFront(intents[id := intent], ordering[(intent.sessionId, id) := intent.sequence], flights)
  {
    forall x | x in flights && HoldsPlace(flights[x].phase) && intents[x].sessionId != NO_SESSION
      ensures IsHead(ordering[(intent.sessionId, id) := intent.sequence], intents[x].sessionId, x)
    {
      JoinBehind(ordering, intents[x].sessionId, x, (intent.sessionId, id), intent.sequence);
    }
  }

  lemma FrontWithoutSession(intents: map<DeliveryId, Intent>, ordering: map<(SessionId, DeliveryId), nat>,
                            flights: map<DeliveryId, Flight>, id: DeliveryId, intent: Intent)
    requires InFront(intents, ordering, flights) && id !in intents
    ensures InFront(intents[id := intent], ordering, flights)
  {
  }

  lemma EnqueueLeavesSent(intents: map<DeliveryId, Intent>, sent: seq<Request>, id: DeliveryId, intent: Intent)
    requires SentFaithfully(intents, sent) && id !in intents
    ensures SentFaithfully(intents[id := intent], sent)
  {
  }

  lemma EnqueueLeavesFlights(intents: map<DeliveryId, Intent>, stamps: map<DeliveryId, int>, q: Queue,
                             dropped: set<DeliveryId>, flights: map<DeliveryId, Flight>,
                             params: EnqueueParams, id: DeliveryId, at: EnqueueClock)
    requires FaithfulFlights(intents, stamps, flights) && CleanedInTurn(q.rows, q.scheduled, dropped, flights)
    requires id !in intents && id !in q.rows
    ensures var q' := Enqueued(q, params, id, at);
      && FaithfulFlights(intents[id := q'.rows[id].intent], stamps[id := at.timestamp], flights)
      && CleanedInTurn(q'.rows, q'.scheduled, dropped, flights)
  {
    assert id !in flights;
  }

  lemma EnqueueKeepsSound(m: Machine, params: EnqueueParams, id: DeliveryId, at: EnqueueClock)
    requires Sound(m) && id !in m.q.rows
    ensures Sound(Enqueue(m, params, id, at))
  {
    hide Numbered, Ranked, FaithfulJobs, FaithfulFlights, Scheduled, ClosedInTurn, InFront, CleanedInTurn, Booked,
      SentFaithfully;
    var q, intents := m.q, Intents(m.q.rows);
    IntentsAfterInsert(q.rows, id, Enqueued(q, params, id, at).rows[id]);
    var intent := NewIntent(params, NextSequence(q, SessionOf(params)));
    EnqueueNumbers(intents, q.seqs, id, intent);
    EnqueueRanks(intents, q.ordering, id, intent);
    EnqueuePlaces(intents, m.stamps, q, params, id, at);
    EnqueueLeavesClosed(q, m.dropped, params, id, at);
    if intent.sessionId != NO_SESSION {
      EnqueueLeavesFront(intents, q.seqs, q.ordering, m.flights, id, intent);
    } else {
      FrontWithoutSession(intents, q.ordering, m.flights, id, intent);
    }
    EnqueueLeavesSent(intents, m.sent, id, intent);
    EnqueueLeavesFlights(intents, m.stamps, q, m.dropped, m.flights, params, id, at);
  }

  lemma RequeueKeepsSound(m: Machine, dead: DeliveryId, id: DeliveryId, at: EnqueueClock, now: int)
    requires Sound(m) && id !in m.q.rows && dead in m.q.deadLetters
    ensures Sound(Requeue(m, dead, id, at, now))
  {
    hide Numbered, Ranked, FaithfulJobs, FaithfulFlights, Scheduled, ClosedInTurn, InFront, CleanedInTurn, Booked,
      SentFaithfully;
    EnqueueKeepsSound(m, RequeueParams(m.q.deadLetters[dead]), id, at);
  }

  // ---------------------------------------------------------------- tick

  lemma TakeOffFaithfully(intents: map<DeliveryId, Intent>, stamps: map<DeliveryId, int>, m: Machine,
        picked: seq<DeliveryId>)
    requires FaithfulJobs(intents, stamps, m.q.jobs) && FaithfulFlights(intents, stamps, m.flights)
    requires forall id :: id in picked ==> id in m.q.jobs
    ensures FaithfulFlights(intents, stamps, TakeOff(m, picked))
  {
  }

  lemma TakeOffInFront(intents: map<DeliveryId, Intent>, m: Machine, now: int, picked: seq<DeliveryId>)
    requires FaithfulJobs(intents, m.stamps, m.q.jobs) && InFront(intents, m.q.ordering, m.flights)
    requires forall id :: id in picked ==> id in m.q.jobs && Eligible(m.q, now, id)
    ensures InFront(intents, m.q.ordering, TakeOff(m, picked))
  {
  }

  lemma TakeOffCounts(m: Machine, now: int, picked: seq<DeliveryId>)
    requires m.q.processing == m.flights.Keys && m.q.active == |m.q.processing|
    requires Distinct(picked) && forall id :: id in picked ==> id in m.q.jobs && Eligible(m.q, now, id)
    ensures m.q.processing + AsSet(picked) == TakeOff(m, picked).Keys
    ensures m.q.active + |picked| == |m.q.processing + AsSet(picked)|
  {
    DistinctCount(picked);
    assert m.q.processing !! AsSet(picked);
  }

  lemma TakeOffOccupies(m: Machine, picked: seq<DeliveryId>, sid: SessionId)
    requires Booked(m.q.active, m.q.processing, m.q.inflightSessions, m.flights)
    requires forall id :: id in picked ==> id in m.q.jobs && id !in m.flights
    requires sid in m.q.inflightSessions + SessionsOf(m.q.jobs, picked)
    ensures sid != NO_SESSION
    ensures exists id :: id in TakeOff(m, picked) && TakeOff(m, picked)[id].job.intent.sessionId == sid
  {
    var flights := TakeOff(m, picked);
    if sid in m.q.inflightSessions {
      var id :| id in m.flights && m.flights[id].job.intent.sessionId == sid;
      assert id in flights && flights[id] == m.flights[id];
    } else {
      var id :| id in picked && m.q.jobs[id].intent.sessionId == sid;
      assert id in flights && flights[id].job == m.q.jobs[id];
    }
  }

  lemma TakeOffSeparates(m: Machine, now: int, picked: seq<DeliveryId>, a: DeliveryId, b: DeliveryId)
    requires Booked(m.q.active, m.q.processing, m.q.inflightSessions, m.flights)
    requires forall id :: id in picked ==> id in m.q.jobs && Eligible(m.q, now, id)
    requires a in TakeOff(m, picked) && b in TakeOff(m, picked) && a != b
    requires TakeOff(m, picked)[a].job.intent.sessionId == TakeOff(m, picked)[b].job.intent.sessionId
    ensures TakeOff(m, picked)[a].job.intent.sessionId == NO_SESSION
  {
    var sid := TakeOff(m, picked)[a].job.intent.sessionId;
    if sid != NO_SESSION && a in picked && b in picked {
      OneHead(m.q.ordering, sid, a, b);
    }
  }

  lemma TakeOffBooks(m: Machine, now: int, picked: seq<DeliveryId>, stale: set<DeliveryId>)
    requires Booked(m.q.active, m.q.processing, m.q.inflightSessions, m.flights)
    requires Distinct(picked) && forall id :: id in picked ==> id in m.q.jobs && Eligible(m.q, now, id)
    ensures var q' := Dispatch(m.q, picked, stale); Booked(q'.active, q'.processing, q'.inflightSessions,
      TakeOff(m, picked))
  {
    var q', flights := Dispatch(m.q, picked, stale), TakeOff(m, picked);
    TakeOffCounts(m, now, picked);
    forall sid | sid in q'.inflightSessions
      ensures sid != NO_SESSION && exists id :: id in flights && flights[id].job.intent.sessionId == sid
    {
      TakeOffOccupies(m, picked, sid);
    }
    forall a, b | a in flights && b in flights && a != b
      && flights[a].job.intent.sessionId == flights[b].job.intent.sessionId
      ensures flights[a].job.intent.sessionId == NO_SESSION
    {
      TakeOffSeparates(m, now, picked, a, b);
    }
  }

  lemma TakeOffCleans(m: Machine, scheduled: map<DeliveryId, int>, picked: seq<DeliveryId>)
    requires CleanedInTurn(m.q.rows, m.q.scheduled, m.dropped, m.flights) && scheduled.Keys <= m.q.scheduled.Keys
    requires forall id :: id in picked ==> id in m.q.jobs
    ensures CleanedInTurn(m.q.rows, scheduled, m.dropped, TakeOff(m, picked))
  {
  }

  lemma ScheduledShrinks(intents: map<DeliveryId, Intent>, ordering: map<(SessionId, DeliveryId), nat>,
                         scheduled: map<DeliveryId, int>, gone: set<DeliveryId>)
    requires Scheduled(intents, ordering, scheduled)
    ensures Scheduled(intents, ordering, scheduled - gone)
  {
  }

  lemma TickKeepsSound(maxConcurrency: int, m: Machine, now: int, picked: seq<DeliveryId>, m': Machine)
    requires Sound(m) && Next(maxConcurrency, m, TickStep(now, picked), m')
    ensures Sound(m')
  {
    hide Numbered, Ranked, FaithfulJobs, FaithfulFlights, Scheduled, ClosedInTurn, InFront, CleanedInTurn, Booked,
      SentFaithfully;
    if maxConcurrency - m.q.active <= 0 {
      assert TakeOff(m, picked) == m.flights;
      assert m' == m;
    } else {
      RoomyTickKeepsSound(maxConcurrency, m, now, picked, m');
    }
  }

  lemma RoomyTickKeepsSound(maxConcurrency: int, m: Machine, now: int, picked: seq<DeliveryId>, m': Machine)
    requires Sound(m) && Next(maxConcurrency, m, TickStep(now, picked), m') && maxConcurrency - m.q.active > 0
    ensures Sound(m')
  {
    hide Numbered, Ranked, FaithfulJobs, FaithfulFlights, Scheduled, ClosedInTurn, InFront, CleanedInTurn, Booked,
      SentFaithfully;
    var intents, stale := Intents(m.q.rows), StaleIds(m.q, now);
    TakeOffFaithfully(intents, m.stamps, m, picked);
    TakeOffInFront(intents, m, now, picked);
    TakeOffBooks(m, now, picked, stale);
    TakeOffCleans(m, m.q.scheduled - stale, picked);
    ScheduledShrinks(intents, m.q.ordering, m.q.scheduled, stale);
  }

  // ---------------------------------------------------------------- one command of a job in progress

  /** Changing only the phase, or the job's attempt and due time, keeps copies faithful and books exact. */
  lemma MoveKeepsBooks(q: Queue, flights: map<DeliveryId, Flight>, id: DeliveryId, flight: Flight)
    requires Booked(q.active, q.processing, q.inflightSessions, flights)
    requires id in flights && flight.job.intent == flights[id].job.intent
    ensures Booked(q.active, q.processing, q.inflightSessions, flights[id := flight])
  {
    var after := flights[id := flight];
    assert after.Keys == flights.Keys;
    assert forall x :: x in after ==> after[x].job.intent == flights[x].job.intent;
    forall sid | sid in q.inflightSessions
      ensures sid != NO_SESSION && exists x :: x in after && after[x].job.intent.sessionId == sid
    {
      var x :| x in flights && flights[x].job.intent.sessionId == sid;
      assert x in after && after[x].job.intent.sessionId == sid;
    }
  }

  lemma MoveKeepsFront(intents: map<DeliveryId, Intent>, stamps: map<DeliveryId, int>,
        ordering: map<(SessionId, DeliveryId), nat>,
                       flights: map<DeliveryId, Flight>, id: DeliveryId, flight: Flight)
    requires FaithfulFlights(intents, stamps, flights) && InFront(intents, ordering, flights)
    requires id in flights && Fits(flight.job, id, intents, stamps)
    requires flight.phase.Rewriting? ==> Fits(flight.phase.next, id, intents, stamps)
    requires HoldsPlace(flight.phase) ==> HoldsPlace(flights[id].phase)
    ensures FaithfulFlights(intents, stamps, flights[id := flight]) && InFront(intents, ordering, flights[id := flight])
  {
  }

  lemma RecordKeepsIntents(q: Queue, job: Job, result: DeliveryResult, verdict: Verdict, now: int)
    ensures Intents(Record(q, job, result, verdict, now).rows) == Intents(q.rows)
    ensures Record(q, job, result, verdict, now) == q.(rows := Record(q, job, result, verdict, now).rows)
  {
  }

  lemma SendFaithfully(intents: map<DeliveryId, Intent>, stamps: map<DeliveryId, int>, sent: seq<Request>, job: Job)
    requires SentFaithfully(intents, sent) && Fits(job, job.id, intents, stamps)
    ensures SentFaithfully(intents, sent + [RequestOf(job)])
  {
  }

  lemma DroppingCloses(m: Machine, id: DeliveryId, flight: Flight)
    requires ClosedInTurn(m.q.rows, m.q.ordering, m.dropped)
      && CleanedInTurn(m.q.rows, m.q.scheduled, m.dropped, m.flights)
    requires id in m.flights && id in m.q.rows && (flight.phase.Unscheduling? || flight.phase.Recording?)
    ensures ClosedInTurn(m.q.rows, m.q.ordering, m.dropped + {id})
    ensures CleanedInTurn(m.q.rows, m.q.scheduled, m.dropped + {id}, m.flights[id := flight])
  {
  }

  lemma NotYetCleaning(m: Machine, id: DeliveryId, flight: Flight)
    requires CleanedInTurn(m.q.rows, m.q.scheduled, m.dropped, m.flights)
    requires flight.phase.Recording? || flight.phase.Finishing? || flight.phase.Rescheduling?
    ensures CleanedInTurn(m.q.rows, m.q.scheduled, m.dropped, m.flights[id := flight])
  {
  }

  lemma CallKeepsSound(m: Machine, id: DeliveryId, env: Env)
    requires Sound(m) && id in m.flights && m.flights[id].phase.Calling?
    ensures Sound(Advance(m, id, env))
  {
    var m', intents := Advance(m, id, env), Intents(m.q.rows);
    assert HoldsPlace(m.flights[id].phase) && Fits(m.flights[id].job, id, intents, m.stamps);
    hide Numbered, Ranked, FaithfulJobs, FaithfulFlights, Scheduled, ClosedInTurn, InFront, CleanedInTurn, Booked,
      SentFaithfully;
    MoveKeepsBooks(m.q, m.flights, id, m'.flights[id]);
    MoveKeepsFront(intents, m.stamps, m.q.ordering, m.flights, id, m'.flights[id]);
    if env.hasTarget {
      SendFaithfully(intents, m.stamps, m.sent, m.flights[id].job);
      NotYetCleaning(m, id, m'.flights[id]);
    } else {
      DroppingCloses(m, id, m'.flights[id]);
    }
  }

  /** What a job in progress that has not given up its place may rely on. */
  lemma FrontOf(m: Machine, id: DeliveryId)
    requires Sound(m) && id in m.flights && HoldsPlace(m.flights[id].phase)
    ensures id in m.q.rows && m.flights[id].job.id == id && m.flights[id].job.intent == m.q.rows[id].intent
    ensures m.q.rows[id].intent.sessionId != NO_SESSION ==> IsHead(m.q.ordering, m.q.rows[id].intent.sessionId, id)
    ensures HasPlace(Intents(m.q.rows), m.q.ordering, id)
  {
    assert Fits(m.flights[id].job, id, Intents(m.q.rows), m.stamps);
  }

  lemma RecordCloses(m: Machine, id: DeliveryId, result: DeliveryResult, verdict: Verdict, now: int)
    requires ClosedInTurn(m.q.rows, m.q.ordering, m.dropped)
      && CleanedInTurn(m.q.rows, m.q.scheduled, m.dropped, m.flights)
    requires id in m.flights && id in m.q.rows && m.flights[id].job.id == id
    requires HasPlace(Intents(m.q.rows), m.q.ordering, id)
    ensures var q' := Record(m.q, m.flights[id].job, result, verdict, now);
      && ClosedInTurn(q'.rows, m.q.ordering, m.dropped)
      && CleanedInTurn(q'.rows, m.q.scheduled, m.dropped,
           m.flights[id := Flight(m.flights[id].job, AfterRecord(m.flights[id].job, result, verdict, now))])
  {
    RecordKeepsIntents(m.q, m.flights[id].job, result, verdict, now);
  }

  lemma AfterRecordFits(job: Job, result: DeliveryResult, verdict: Verdict, now: int,
                        id: DeliveryId, intents: map<DeliveryId, Intent>, stamps: map<DeliveryId, int>)
    requires Fits(job, id, intents, stamps)
    ensures var phase := AfterRecord(job, result, verdict, now);
      HoldsPlace(phase) && (phase.Rewriting? ==> Fits(phase.next, id, intents, stamps))
  {
  }

  lemma RecordKeepsSound(m: Machine, id: DeliveryId, env: Env)
    requires Sound(m) && id in m.flights && m.flights[id].phase.Recording?
    ensures Sound(Advance(m, id, env))
  {
    var m', intents := Advance(m, id, env), Intents(m.q.rows);
    assert HoldsPlace(m.flights[id].phase) && Fits(m.flights[id].job, id, intents, m.stamps);
    hide Numbered, Ranked, FaithfulJobs, FaithfulFlights, Scheduled, ClosedInTurn, InFront, CleanedInTurn, Booked,
      SentFaithfully,
      Record, AfterRecord, Judge, Intents, HasPlace, Fits;
    var job, result := m.flights[id].job, m.flights[id].phase.result;
    var verdict := Judge(job, result, env.now, env.rand);
    FrontOf(m, id);
    AfterRecordFits(job, result, verdict, env.now, id, intents, m.stamps);
    RecordKeepsIntents(m.q, job, result, verdict, env.now);
    RecordCloses(m, id, result, verdict, env.now);
    MoveKeepsBooks(m.q, m.flights, id, m'.flights[id]);
    MoveKeepsFront(intents, m.stamps, m.q.ordering, m.flights, id, m'.flights[id]);
  }

  // Burying

  lemma StillClosed(m: Machine, id: DeliveryId, flight: Flight)
    requires CleanedInTurn(m.q.rows, m.q.scheduled, m.dropped, m.flights)
    requires id in m.flights && m.flights[id].phase.Burying? && (flight.phase.Finishing? || flight.phase.Unscheduling?)
    ensures CleanedInTurn(m.q.rows, m.q.scheduled, m.dropped, m.flights[id := flight])
  {
  }

  lemma BuryKeepsSound(m: Machine, id: DeliveryId, env: Env)
    requires Sound(m) && id in m.flights && m.flights[id].phase.Burying?
    ensures Sound(Advance(m, id, env))
  {
    var m', intents := Advance(m, id, env), Intents(m.q.rows);
    assert HoldsPlace(m.flights[id].phase) && Fits(m.flights[id].job, id, intents, m.stamps);
    hide Numbered, Ranked, FaithfulJobs, FaithfulFlights, Scheduled, ClosedInTurn, InFront, CleanedInTurn, Booked,
      SentFaithfully;
    StillClosed(m, id, m'.flights[id]);
    MoveKeepsBooks(m.q, m.flights, id, m'.flights[id]);
    MoveKeepsFront(intents, m.stamps, m.q.ordering, m.flights, id, m'.flights[id]);
  }

  // Clean-up

  lemma UnscheduleCleans(m: Machine, id: DeliveryId, job: Job)
    requires CleanedInTurn(m.q.rows, m.q.scheduled, m.dropped, m.flights)
    requires id in m.flights && m.flights[id].phase.Unscheduling?
    ensures CleanedInTurn(m.q.rows, m.q.scheduled - {id}, m.dropped, m.flights[id := Flight(job, Unordering)])
  {
  }

  lemma UnscheduleKeepsSound(m: Machine, id: DeliveryId, env: Env)
    requires Sound(m) && id in m.flights && m.flights[id].phase.Unscheduling?
    ensures Sound(Advance(m, id, env))
  {
    var m', intents := Advance(m, id, env), Intents(m.q.rows);
    assert HoldsPlace(m.flights[id].phase) && Fits(m.flights[id].job, id, intents, m.stamps);
    hide Numbered, Ranked, FaithfulJobs, FaithfulFlights, Scheduled, ClosedInTurn, InFront, CleanedInTurn, Booked,
      SentFaithfully;
    UnscheduleCleans(m, id, m.flights[id].job);
    ScheduledShrinks(intents, m.q.ordering, m.q.scheduled, {id});
    MoveKeepsBooks(m.q, m.flights, id, m'.flights[id]);
    MoveKeepsFront(intents, m.stamps, m.q.ordering, m.flights, id, m'.flights[id]);
  }

  lemma UnorderRanks(intents: map<DeliveryId, Intent>, ordering: map<(SessionId, DeliveryId), nat>,
        entry: (SessionId, DeliveryId))
    requires Ranked(intents, ordering)
    ensures Ranked(intents, ordering - {entry})
  {
  }

  lemma UnorderSchedules(m: Machine, id: DeliveryId)
    requires Scheduled(Intents(m.q.rows), m.q.ordering, m.q.scheduled)
      && ClosedInTurn(m.q.rows, m.q.ordering, m.dropped)
    requires id in m.q.rows && id !in m.q.scheduled && Closed(m.q.rows, m.dropped, id)
    ensures var ordering := m.q.ordering - {(m.q.rows[id].intent.sessionId, id)};
      Scheduled(Intents(m.q.rows), ordering, m.q.scheduled) && ClosedInTurn(m.q.rows, ordering, m.dropped)
  {
  }

  /** Only the front job of the same session could notice, and that is the one leaving. */
  lemma UnorderFronts(m: Machine, id: DeliveryId)
    requires FaithfulFlights(Intents(m.q.rows), m.stamps, m.flights)
      && InFront(Intents(m.q.rows), m.q.ordering, m.flights)
    requires Booked(m.q.active, m.q.processing, m.q.inflightSessions, m.flights)
    requires id in m.flights
    ensures var job := m.flights[id].job;
      InFront(Intents(m.q.rows), m.q.ordering - {(job.intent.sessionId, id)}, m.flights[id := Flight(job, Deleting)])
  {
    var intents, job := Intents(m.q.rows), m.flights[id].job;
    var ordering := m.q.ordering - {(job.intent.sessionId, id)};
    forall x | x in m.flights && x != id && HoldsPlace(m.flights[x].phase) && intents[x].sessionId != NO_SESSION
      ensures IsHead(ordering, intents[x].sessionId, x)
    {
      assert Fits(m.flights[x].job, x, intents, m.stamps);
      StillHead(m.q.ordering, intents[x].sessionId, x, (job.intent.sessionId, id));
    }
  }

  lemma StillHead(ordering: map<(SessionId, DeliveryId), nat>, sid: SessionId, head: DeliveryId,
        gone: (SessionId, DeliveryId))
    requires IsHead(ordering, sid, head) && gone != (sid, head)
    ensures IsHead(ordering - {gone}, sid, head)
  {
    forall k | k in (ordering - {gone}).Keys && k.0 == sid ensures RanksBefore(ordering - {gone}, sid, head, k.1) {
      assert k in ordering.Keys && k == (sid, k.1);
      assert RanksBefore(ordering, sid, head, k.1);
    }
  }

  lemma UnorderCleans(m: Machine, id: DeliveryId, job: Job)
    requires CleanedInTurn(m.q.rows, m.q.scheduled, m.dropped, m.flights)
    requires id in m.flights && m.flights[id].phase.Unordering?
    ensures id in m.q.rows && id !in m.q.scheduled && Closed(m.q.rows, m.dropped, id)
    ensures CleanedInTurn(m.q.rows, m.q.scheduled, m.dropped, m.flights[id := Flight(job, Deleting)])
  {
  }

  lemma UnorderKeepsSound(m: Machine, id: DeliveryId, env: Env)
    requires Sound(m) && id in m.flights && m.flights[id].phase.Unordering?
    ensures Sound(Advance(m, id, env))
  {
    var m', intents, job := Advance(m, id, env), Intents(m.q.rows), m.flights[id].job;
    assert HoldsPlace(m.flights[id].phase) && Fits(job, id, intents, m.stamps);
    hide Numbered, Ranked, FaithfulJobs, FaithfulFlights, Scheduled, ClosedInTurn, InFront, CleanedInTurn, Booked,
      SentFaithfully;
    var entry := (job.intent.sessionId, id);
    UnorderCleans(m, id, job);
    MoveKeepsBooks(m.q, m.flights, id, m'.flights[id]);
    MoveKeepsFront(intents, m.stamps, m.q.ordering, m.flights, id, m'.flights[id]);
    if job.intent.sessionId != NO_SESSION {
      UnorderRanks(intents, m.q.ordering, entry);
      UnorderSchedules(m, id);
      UnorderFronts(m, id);
    }
  }

  lemma FewerJobsFaithful(intents: map<DeliveryId, Intent>, stamps: map<DeliveryId, int>, jobs: map<DeliveryId, Job>,
        id: DeliveryId)
    requires FaithfulJobs(intents, stamps, jobs)
    ensures FaithfulJobs(intents, stamps, jobs - {id})
  {
  }

  lemma DeleteKeepsSound(m: Machine, id: DeliveryId, env: Env)
    requires Sound(m) && id in m.flights && m.flights[id].phase.Deleting?
    ensures Sound(Advance(m, id, env))
  {
    var m', intents := Advance(m, id, env), Intents(m.q.rows);
    assert Fits(m.flights[id].job, id, intents, m.stamps);
    hide Numbered, Ranked, FaithfulJobs, FaithfulFlights, Scheduled, ClosedInTurn, InFront, CleanedInTurn, Booked,
      SentFaithfully;
    FewerJobsFaithful(intents, m.stamps, m.q.jobs, id);
    NotYetCleaning(m, id, m'.flights[id]);
    MoveKeepsBooks(m.q, m.flights, id, m'.flights[id]);
    MoveKeepsFront(intents, m.stamps, m.q.ordering, m.flights, id, m'.flights[id]);
  }

  // Retrying

  lemma RewriteFaithfully(intents: map<DeliveryId, Intent>, stamps: map<DeliveryId, int>, jobs: map<DeliveryId, Job>,
        id: DeliveryId, next: Job)
    requires FaithfulJobs(intents, stamps, jobs) && Fits(next, id, intents, stamps)
    ensures FaithfulJobs(intents, stamps, jobs[id := next])
  {
  }

  lemma RewriteKeepsSound(m: Machine, id: DeliveryId, env: Env)
    requires Sound(m) && id in m.flights && m.flights[id].phase.Rewriting?
    ensures Sound(Advance(m, id, env))
  {
    var m', intents := Advance(m, id, env), Intents(m.q.rows);
    var next := m.flights[id].phase.next;
    assert HoldsPlace(m.flights[id].phase) && Fits(m.flights[id].job, id, intents, m.stamps)
      && Fits(next, id, intents, m.stamps);
    hide Numbered, Ranked, FaithfulJobs, FaithfulFlights, Scheduled, ClosedInTurn, InFront, CleanedInTurn, Booked,
      SentFaithfully;
    RewriteFaithfully(intents, m.stamps, m.q.jobs, id, next);
    NotYetCleaning(m, id, m'.flights[id]);
    MoveKeepsBooks(m.q, m.flights, id, m'.flights[id]);
    MoveKeepsFront(intents, m.stamps, m.q.ordering, m.flights, id, m'.flights[id]);
  }

  lemma RescheduleCleans(m: Machine, id: DeliveryId, job: Job, at: int)
    requires CleanedInTurn(m.q.rows, m.q.scheduled, m.dropped, m.flights)
    ensures CleanedInTurn(m.q.rows, m.q.scheduled[id := at], m.dropped, m.flights[id := Flight(job, Finishing)])
  {
  }

  lemma ReschedulePlaced(intents: map<DeliveryId, Intent>, ordering: map<(SessionId, DeliveryId), nat>,
        scheduled: map<DeliveryId, int>,
                         id: DeliveryId, at: int)
    requires Scheduled(intents, ordering, scheduled) && id in intents && HasPlace(intents, ordering, id)
    ensures Scheduled(intents, ordering, scheduled[id := at])
  {
  }

  lemma RescheduleKeepsSound(m: Machine, id: DeliveryId, env: Env)
    requires Sound(m) && id in m.flights && m.flights[id].phase.Rescheduling?
    ensures Sound(Advance(m, id, env))
  {
    var m', intents, job := Advance(m, id, env), Intents(m.q.rows), m.flights[id].job;
    assert HoldsPlace(m.flights[id].phase) && Fits(job, id, intents, m.stamps);
    FrontOf(m, id);
    hide Numbered, Ranked, FaithfulJobs, FaithfulFlights, Scheduled, ClosedInTurn, InFront, CleanedInTurn, Booked,
      SentFaithfully;
    RescheduleCleans(m, id, job, job.availableAt);
    ReschedulePlaced(intents, m.q.ordering, m.q.scheduled, id, job.availableAt);
    MoveKeepsBooks(m.q, m.flights, id, m'.flights[id]);
    MoveKeepsFront(intents, m.stamps, m.q.ordering, m.flights, id, m'.flights[id]);
  }

  // Releasing

  /** The clamp at zero never takes effect: the released job was counted. */
  lemma ReleaseBooks(q: Queue, flights: map<DeliveryId, Flight>, id: DeliveryId)
    requires Booked(q.active, q.processing, q.inflightSessions, flights) && id in flights && flights[id].job.id == id
    ensures var q' := Release(q, flights[id].job);
      && q'.active == q.active - 1
      && q' == q.(active := q'.active, processing := q'.processing, inflightSessions := q'.inflightSessions)
      && Booked(q'.active, q'.processing, q'.inflightSessions, flights - {id})
  {
    var q', after := Release(q, flights[id].job), flights - {id};
    assert q.processing == q'.processing + {id};
    forall sid | sid in q'.inflightSessions
      ensures sid != NO_SESSION && exists x :: x in after && after[x].job.intent.sessionId == sid
    {
      var x :| x in flights && flights[x].job.intent.sessionId == sid;
      assert x != id;
      assert x in after && after[x] == flights[x];
    }
  }

  lemma FewerFlights(intents: map<DeliveryId, Intent>, m: Machine, gone: set<DeliveryId>)
    requires FaithfulFlights(intents, m.stamps, m.flights) && InFront(intents, m.q.ordering, m.flights)
    requires CleanedInTurn(m.q.rows, m.q.scheduled, m.dropped, m.flights)
    ensures FaithfulFlights(intents, m.stamps, m.flights - gone) && InFront(intents, m.q.ordering, m.flights - gone)
    ensures CleanedInTurn(m.q.rows, m.q.scheduled, m.dropped, m.flights - gone)
  {
  }

  lemma FinishKeepsSound(m: Machine, id: DeliveryId, env: Env)
    requires Sound(m) && id in m.flights && m.flights[id].phase.Finishing?
    ensures Sound(Advance(m, id, env))
  {
    var intents, q' := Intents(m.q.rows), Release(m.q, m.flights[id].job);
    assert Fits(m.flights[id].job, id, intents, m.stamps);
    assert Advance(m, id, env) == m.(q := q', flights := m.flights - {id});
    hide Numbered, Ranked, FaithfulJobs, FaithfulFlights, Scheduled, ClosedInTurn, InFront, CleanedInTurn, Booked,
      SentFaithfully;
    hide Release, Advance, Intents, Fits;
    ReleaseBooks(m.q, m.flights, id);
    FewerFlights(intents, m, {id});
  }

  lemma AdvanceKeepsSound(m: Machine, id: DeliveryId, env: Env)
    requires Sound(m) && id in m.flights
    ensures Sound(Advance(m, id, env))
  {
    hide Sound, Advance;
    match m.flights[id].phase
    case Calling => CallKeepsSound(m, id, env);
    case Recording(result) => RecordKeepsSound(m, id, env);
    case Burying(reason, lastEntry) => BuryKeepsSound(m, id, env);
    case Unscheduling => UnscheduleKeepsSound(m, id, env);
    case Unordering => UnorderKeepsSound(m, id, env);
    case Deleting => DeleteKeepsSound(m, id, env);
    case Rewriting(next) => RewriteKeepsSound(m, id, env);
    case Rescheduling => RescheduleKeepsSound(m, id, env);
    case Finishing => FinishKeepsSound(m, id, env);
  }

  // ---------------------------------------------------------------- failures and crashes

  lemma FailKeepsSound(m: Machine, id: DeliveryId)
    requires Sound(m) && id in m.flights
    ensures Sound(Move(m, id, m.q, m.flights[id].job, Finishing))
  {
    var intents, flight := Intents(m.q.rows), Flight(m.flights[id].job, Finishing);
    assert Fits(m.flights[id].job, id, intents, m.stamps);
    hide Numbered, Ranked, FaithfulJobs, FaithfulFlights, Scheduled, ClosedInTurn, InFront, CleanedInTurn, Booked,
      SentFaithfully;
    NotYetCleaning(m, id, flight);
    MoveKeepsBooks(m.q, m.flights, id, flight);
    MoveKeepsFront(intents, m.stamps, m.q.ordering, m.flights, id, flight);
  }

  lemma CrashKeepsSound(m: Machine)
    requires Sound(m)
    ensures Sound(Crashed(m))
  {
  }

  lemma SweepNumbers(q: Queue, seqs: map<SessionId, nat>)
    requires CountersRaised(q, OrphanIds(q), seqs) && Numbered(Intents(q.rows), q.seqs)
    ensures Numbered(Intents(q.rows), seqs)
  {
    assert forall sid :: sid in q.seqs ==> sid in seqs && q.seqs[sid] <= seqs[sid];
    hide CountersRaised, OrphanIds;
  }

  lemma SweepRanks(q: Queue, ordering: map<(SessionId, DeliveryId), nat>)
    requires OrderRebuilt(q, OrphanIds(q), ordering) && Ranked(Intents(q.rows), q.ordering)
    ensures Ranked(Intents(q.rows), ordering)
  {
    forall sid, id | (sid, id) in ordering
      ensures sid != NO_SESSION && id in Intents(q.rows)
      ensures Intents(q.rows)[id].sessionId == sid && Intents(q.rows)[id].sequence == ordering[(sid, id)]
    {
      if RevivedEntry(q, OrphanIds(q), (sid, id)) {
        assert id in q.rows;
      } else {
        assert (sid, id) in q.ordering;
      }
    }
  }

  lemma OrphansHavePlaces(q: Queue, ordering: map<(SessionId, DeliveryId), nat>, id: DeliveryId)
    requires OrderRebuilt(q, OrphanIds(q), ordering) && id in OrphanIds(q)
    ensures HasPlace(Intents(q.rows), ordering, id)
  {
    assert q.rows[id].intent.sessionId != NO_SESSION ==>
      RevivedEntry(q, OrphanIds(q), (q.rows[id].intent.sessionId, id));
  }

  lemma SweepPlaces(q: Queue, now: int, ordering: map<(SessionId, DeliveryId), nat>, scheduled: map<DeliveryId, int>)
    requires OrderRebuilt(q, OrphanIds(q), ordering) && ScheduleRebuilt(q, OrphanIds(q), now, scheduled)
    requires Scheduled(Intents(q.rows), q.ordering, q.scheduled)
    ensures Scheduled(Intents(q.rows), ordering, scheduled)
  {
    assert forall k :: k in q.ordering ==> k in ordering;
    forall id | id in scheduled ensures id in Intents(q.rows) && HasPlace(Intents(q.rows), ordering, id) {
      if id in OrphanIds(q) {
        OrphansHavePlaces(q, ordering, id);
      }
    }
  }

  lemma SweepCloses(q: Queue, ordering: map<(SessionId, DeliveryId), nat>, dropped: set<DeliveryId>)
    requires OrderRebuilt(q, OrphanIds(q), ordering) && ClosedInTurn(q.rows, q.ordering, dropped)
    ensures ClosedInTurn(q.rows, ordering, dropped - OrphanIds(q))
  {
    forall id | id in q.rows
      && !HasPlace(Intents(q.rows), ordering, id) ensures Closed(q.rows, dropped - OrphanIds(q), id) {
      if id in OrphanIds(q) {
        OrphansHavePlaces(q, ordering, id);
      }
      assert forall k :: k in q.ordering ==> k in ordering;
      hide OrderRebuilt, OrphanIds;
    }
  }

  lemma SweepRebuildsFaithfully(m: Machine, now: int, swept: Queue)
    requires IsRecovery(Crashed(m).q, now, swept) && FaithfulJobs(Intents(m.q.rows), m.stamps, m.q.jobs)
    ensures FaithfulJobs(Intents(m.q.rows), Restarted(m, swept).stamps, swept.jobs)
  {
  }

  lemma NothingInProgress(intents: map<DeliveryId, Intent>, m: Machine)
    requires m.flights == map[] && m.q.active == 0 && m.q.processing == {} && m.q.inflightSessions == {}
    ensures FaithfulFlights(intents, m.stamps, m.flights) && InFront(intents, m.q.ordering, m.flights)
    ensures CleanedInTurn(m.q.rows, m.q.scheduled, m.dropped, m.flights)
    ensures Booked(m.q.active, m.q.processing, m.q.inflightSessions, m.flights)
  {
  }

  lemma RestartKeepsSound(m: Machine, now: int, m': Machine)
    requires Sound(m) && IsRecovery(Crashed(m).q, now, m'.q) && m' == Restarted(m, m'.q)
    ensures Sound(m')
  {
    var q := Crashed(m).q;
    RestartedKeeps(m, now, m'.q);
    hide Numbered, Ranked, FaithfulJobs, FaithfulFlights, Scheduled, ClosedInTurn, InFront, CleanedInTurn, Booked,
      SentFaithfully;
    hide JobsRebuilt, ScheduleRebuilt, OrderRebuilt, CountersRaised, OrphanIds, Intents, Restarted;
    SweepNumbers(q, m'.q.seqs);
    SweepRanks(q, m'.q.ordering);
    SweepPlaces(q, now, m'.q.ordering, m'.q.scheduled);
    SweepCloses(q, m'.q.ordering, m.dropped);
    SweepRebuildsFaithfully(m, now, m'.q);
    NothingInProgress(Intents(m'.q.rows), m');
  }

  lemma RestartedKeeps(m: Machine, now: int, swept: Queue)
    requires IsRecovery(Crashed(m).q, now, swept)
    ensures var m' := Restarted(m, swept);
      && m'.q == swept && m'.sent == m.sent && m'.dropped == m.dropped - OrphanIds(m.q) && m'.flights == map[]
      && swept.rows == m.q.rows && swept.active == 0 && swept.processing == {} && swept.inflightSessions == {}
    ensures OrphanIds(Crashed(m).q) == OrphanIds(m.q)
  {
    hide JobsRebuilt, ScheduleRebuilt, OrderRebuilt, CountersRaised;
  }

  lemma StepKeepsSound(maxConcurrency: int, m: Machine, step: Step, m': Machine)
    requires Sound(m) && Next(maxConcurrency, m, step, m')
    ensures Sound(m')
  {
    hide Sound, IsTick, Advance, Enqueue, Requeue, IsRecovery, Restarted;
    match step
    case EnqueueStep(params, id, at) => EnqueueKeepsSound(m, params, id, at);
    case RequeueStep(merchantId, dead, id, at, now) =>
      if MayRequeue(m.q, merchantId, dead) {
        RequeueKeepsSound(m, dead, id, at, now);
      }
    case TickStep(now, picked) => TickKeepsSound(maxConcurrency, m, now, picked, m');
    case AdvanceStep(id, env) => AdvanceKeepsSound(m, id, env);
    case FailStep(id) => FailKeepsSound(m, id);
    case CrashStep => CrashKeepsSound(m);
    case RestartStep(now) => RestartKeepsSound(m, now, m');
  }

  /** The invariant holds in every state of every run. */
  lemma {:induction false} RunIsSound(maxConcurrency: int, ms: seq<Machine>, steps: seq<Step>)
    requires IsRun(maxConcurrency, ms, steps)
    ensures forall i :: 0 <= i < |ms| ==> Sound(ms[i])
  {
    hide Sound, Next;
    if steps == [] {
      SoundInitially();
    } else {
      var n := |steps| - 1;
      RunIsSound(maxConcurrency, ms[..n + 1], steps[..n]);
      assert Sound(ms[..n + 1][n]);
      StepKeepsSound(maxConcurrency, ms[n], steps[n], ms[n + 1]);
      assert forall i :: 0 <= i <= n ==> ms[i] == ms[..n + 1][i];
    }
  }

  // ---------------------------------------------------------------- main result

  /** Whenever a job is requested, in any run, every delivery of its session with a lower sequence has been delivered or
      dead-lettered, or was dropped and not revived since. */
  lemma RequestedOnlyInTurn(maxConcurrency: int, ms: seq<Machine>, steps: seq<Step>, i: nat, id: DeliveryId, env: Env,
        earlier: DeliveryId)
    requires IsRun(maxConcurrency, ms, steps) && i < |steps| && steps[i] == AdvanceStep(id, env)
    requires |ms[i + 1].sent| > |ms[i].sent|
    requires id in ms[i].q.rows && earlier in ms[i].q.rows
    requires ms[i].q.rows[earlier].intent.sessionId == ms[i].q.rows[id].intent.sessionId != NO_SESSION
    requires ms[i].q.rows[earlier].intent.sequence < ms[i].q.rows[id].intent.sequence
    ensures id in ms[i].stamps
      && ms[i + 1].sent == ms[i].sent + [Request(id, ms[i].q.rows[id].intent, ms[i].stamps[id])]
    ensures Closed(ms[i].q.rows, ms[i].dropped, earlier)
  {
    RunIsSound(maxConcurrency, ms, steps);
    assert Sound(ms[i]) && Next(maxConcurrency, ms[i], steps[i], ms[i + 1]);
    TurnOf(ms[i], id, env, earlier);
  }

  lemma TurnOf(m: Machine, id: DeliveryId, env: Env, earlier: DeliveryId)
    requires Sound(m) && id in m.flights && |Advance(m, id, env).sent| > |m.sent|
    requires id in m.q.rows && earlier in m.q.rows
    requires m.q.rows[earlier].intent.sessionId == m.q.rows[id].intent.sessionId != NO_SESSION
    requires m.q.rows[earlier].intent.sequence < m.q.rows[id].intent.sequence
    ensures id in m.stamps && Advance(m, id, env).sent == m.sent + [Request(id, m.q.rows[id].intent, m.stamps[id])]
    ensures Closed(m.q.rows, m.dropped, earlier)
  {
    assert m.flights[id].phase.Calling?;
    var sid := m.q.rows[id].intent.sessionId;
    FrontOf(m, id);
    assert Fits(m.flights[id].job, id, Intents(m.q.rows), m.stamps);
    if HasPlace(Intents(m.q.rows), m.q.ordering, earlier) {
      HeadIsLowest(m.q.ordering, sid, id, earlier);
    }
  }

  lemma HeadIsLowest(ordering: map<(SessionId, DeliveryId), nat>, sid: SessionId, head: DeliveryId, other: DeliveryId)
    requires IsHead(ordering, sid, head) && (sid, other) in ordering
    ensures ordering[(sid, head)] <= ordering[(sid, other)]
  {
    assert (sid, other) in ordering.Keys;
    assert RanksBefore(ordering, sid, head, (sid, other).1);
  }
}
