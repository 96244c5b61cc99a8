/** A run in which a restart turns two requests of a session around. */
module WebhookQueueCounterexamples {
  import opened Options
  import opened WebhookConstants
  import opened WebhookQueueState
  import opened WebhookQueueRuns
  import opened WebhookQueueOrder
  import opened WebhookQueueRequests

  const SESSION: SessionId := 9

  function Clock(): EnqueueClock {
    EnqueueClock(0, 0, 0)
  }

  function Answer(): DeliveryResult {
    DeliveryResult(Outcome.Success, Some(200), None)
  }

  function Environment(hasTarget: bool): Env {
    Env(hasTarget, Answer(), 0, 0.0)
  }

  function ExampleParams(): EnqueueParams {
    EnqueueParams(1, "session.created", "{}", Some(SESSION))
  }

  /** Delivery n is the n-th of the session. */
  function ExampleIntent(n: DeliveryId): Intent {
    NewIntent(ExampleParams(), n)
  }

  function ExampleJob(n: DeliveryId): Job {
    NewJob(ExampleIntent(n), n, Clock())
  }

  function ExampleRow(n: DeliveryId): Row {
    NewRow(ExampleIntent(n), Clock())
  }

  function Rows(known: nat): map<DeliveryId, Row> {
    if known == 1 then map[1 := ExampleRow(1)] else map[1 := ExampleRow(1), 2 := ExampleRow(2)]
  }

  function Stamps(known: nat): map<DeliveryId, int> {
    if known == 1 then map[1 := 0] else map[1 := 0, 2 := 0]
  }

  /** Of the deliveries known, the scheduled ones, those waiting in the session and those with a hash; one busy or
      none. */
  function ExampleQueue(
      known: nat, scheduled: map<DeliveryId, int>, ordering: map<(SessionId, DeliveryId), nat>,
      jobs: map<DeliveryId, Job>, busy: set<DeliveryId>): Queue
  {
    Queue(scheduled, ordering, jobs, map[SESSION := known], Rows(known), map[],
          if busy == {} then 0 else 1, busy, if busy == {} then {} else {SESSION})
  }

  function Alive(known: nat, id: DeliveryId, busy: set<DeliveryId>): Queue {
    ExampleQueue(known, map[id := 0], map[(SESSION, id) := id], map[id := ExampleJob(id)], busy)
  }

  function BothAlive(busy: set<DeliveryId>): Queue {
    ExampleQueue(2, map[1 := 0, 2 := 0], map[(SESSION, 1) := 1, (SESSION, 2) := 2],
      map[1 := ExampleJob(1), 2 := ExampleJob(2)], busy)
  }

  function InProgress(known: nat, q: Queue, id: DeliveryId, phase: Phase, sent: seq<Request>,
        dropped: set<DeliveryId>): Machine {
    Machine(q, map[id := Flight(ExampleJob(id), phase)], Stamps(known), sent, dropped)
  }

  /** The first delivery finds no target and is dropped; the second is requested; the worker restarts and its sweep
      revives the first; the first is requested. */
  function Comeback(i: nat): Machine {
    var requests := [RequestOf(ExampleJob(2))];
    if i == 0 then InitialMachine()
    else if i == 1 then Machine(Alive(1, 1, {}), map[], Stamps(1), [], {})
    else if i == 2 then InProgress(1, Alive(1, 1, {1}), 1, Calling, [], {})
    else if i == 3 then InProgress(1, Alive(1, 1, {1}), 1, Unscheduling, [], {1})
    else if i == 4 then
      InProgress(1, ExampleQueue(1, map[], map[(SESSION, 1) := 1], map[1 := ExampleJob(1)], {1}), 1, Unordering, [],
        {1})
    else if i == 5 then InProgress(1, ExampleQueue(1, map[], map[], map[1 := ExampleJob(1)], {1}), 1, Deleting, [], {1})
    else if i == 6 then InProgress(1, ExampleQueue(1, map[], map[], map[], {1}), 1, Finishing, [], {1})
    else if i == 7 then Machine(ExampleQueue(1, map[], map[], map[], {}), map[], Stamps(1), [], {1})
    else if i == 8 then Machine(Alive(2, 2, {}), map[], Stamps(2), [], {1})
    else if i == 9 then InProgress(2, Alive(2, 2, {2}), 2, Calling, [], {1})
    else if i == 10 then InProgress(2, Alive(2, 2, {2}), 2, Recording(Answer()), requests, {1})
    else if i == 11 then Machine(BothAlive({}), map[], Stamps(2), requests, {})
    else if i == 12 then InProgress(2, BothAlive({1}), 1, Calling, requests, {})
    else InProgress(2, BothAlive({1}), 1, Recording(Answer()), requests + [RequestOf(ExampleJob(1))], {})
  }

  function ComebackSteps(): seq<Step> {
    [EnqueueStep(ExampleParams(), 1, Clock()),
     TickStep(0, [1]),
     AdvanceStep(1, Environment(false)),
     AdvanceStep(1, Environment(false)),
     AdvanceStep(1, Environment(false)),
     AdvanceStep(1, Environment(false)),
     AdvanceStep(1, Environment(false)),
     EnqueueStep(ExampleParams(), 2, Clock()),
     TickStep(0, [2]),
     AdvanceStep(2, Environment(true)),
     RestartStep(0),
     TickStep(0, [1]),
     AdvanceStep(1, Environment(true))]
  }

  lemma EnqueueExamples()
    ensures Enqueue(Comeback(0), ExampleParams(), 1, Clock()) == Comeback(1)
    ensures Enqueue(Comeback(7), ExampleParams(), 2, Clock()) == Comeback(8)
  {
    hide PriorityFor;
  }

  /** With room for one, a pass takes the head of the only session. */
  lemma OneSessionTick(q: Queue, head: DeliveryId)
    requires q.active == 0 && q.processing == {} && q.inflightSessions == {}
    requires IsHead(q.ordering, SESSION, head) && head in q.scheduled
    requires forall id :: id in q.scheduled ==>
      q.scheduled[id] <= 0 && id in q.jobs && q.jobs[id].intent.sessionId == SESSION
    ensures IsTick(q, 1, 0, [head], Dispatch(q, [head], {}))
  {
    forall id | id in q.scheduled && Eligible(q, 0, id) ensures id == head {
      OneHead(q.ordering, SESSION, id, head);
    }
    hide IsHead;
    assert EligibleIds(q, 0) == {head};
    assert StaleIds(q, 0) == {};
  }

  lemma TickAlone(known: nat, id: DeliveryId, sent: seq<Request>, dropped: set<DeliveryId>)
    ensures Next(1, Machine(Alive(known, id, {}), map[], Stamps(known), sent, dropped), TickStep(0, [id]),
                 InProgress(known, Alive(known, id, {id}), id, Calling, sent, dropped))
  {
    hide PriorityFor, Rows, Stamps;
    var q := Alive(known, id, {});
    assert (SESSION, id) in q.ordering;
    OneSessionTick(q, id);
    hide IsTick;
    DispatchesTo(q, id, Alive(known, id, {id}));
    assert TakeOff(Machine(q, map[], Stamps(known), sent, dropped), [id]) == map[id := Flight(ExampleJob(id), Calling)];
  }

  lemma DispatchesTo(q: Queue, id: DeliveryId, q': Queue)
    requires id in q.jobs && q.jobs[id].intent.sessionId == SESSION && q.active == 0 && q.processing == {}
      && q.inflightSessions == {}
    requires q' == q.(active := 1, processing := {id}, inflightSessions := {SESSION})
    ensures Dispatch(q, [id], {}) == q'
  {
    assert AsSet([id]) == {id} && SessionsOf(q.jobs, [id]) == {SESSION} && q.scheduled - {} == q.scheduled;
  }

  lemma TickBoth(sent: seq<Request>)
    ensures Next(1, Machine(BothAlive({}), map[], Stamps(2), sent, {}), TickStep(0, [1]),
                 InProgress(2, BothAlive({1}), 1, Calling, sent, {}))
  {
    hide PriorityFor, Rows, Stamps;
    var q := BothAlive({});
    assert (SESSION, 1) in q.ordering && (SESSION, 2) in q.ordering;
    OneSessionTick(q, 1);
    hide IsTick;
    DispatchesTo(q, 1, BothAlive({1}));
    assert TakeOff(Machine(q, map[], Stamps(2), sent, {}), [1]) == map[1 := Flight(ExampleJob(1), Calling)];
  }

  lemma DropExamples()
    ensures 1 in Comeback(2).flights && Advance(Comeback(2), 1, Environment(false)) == Comeback(3)
    ensures 1 in Comeback(3).flights && Advance(Comeback(3), 1, Environment(false)) == Comeback(4)
  {
    hide PriorityFor, Rows, Stamps;
    assert map[1 := 0] - {1} == map[];
  }

  lemma CleanExamples()
    ensures 1 in Comeback(4).flights && Advance(Comeback(4), 1, Environment(false)) == Comeback(5)
    ensures 1 in Comeback(5).flights && Advance(Comeback(5), 1, Environment(false)) == Comeback(6)
    ensures 1 in Comeback(6).flights && Advance(Comeback(6), 1, Environment(false)) == Comeback(7)
  {
    hide PriorityFor, Rows, Stamps;
    assert Comeback(4).q.ordering - {(SESSION, 1)} == Comeback(5).q.ordering;
    assert Comeback(5).q.jobs - {1} == Comeback(6).q.jobs;
  }

  lemma SendExamples()
    ensures 2 in Comeback(9).flights && Advance(Comeback(9), 2, Environment(true)) == Comeback(10)
    ensures 1 in Comeback(12).flights && Advance(Comeback(12), 1, Environment(true)) == Comeback(13)
  {
    hide PriorityFor, Alive, BothAlive, Stamps;
  }

  lemma OrphanExample()
    ensures OrphanIds(Comeback(10).q) == {1} && OrphanIds(Crashed(Comeback(10)).q) == {1}
  {
    hide PriorityFor;
  }

  lemma RebuiltExample(q: Queue)
    requires q == Alive(2, 2, {})
    ensures JobsRebuilt(q, {1}, 0, BothAlive({}).jobs) && ScheduleRebuilt(q, {1}, 0, BothAlive({}).scheduled)
    ensures OrderRebuilt(q, {1}, BothAlive({}).ordering)
  {
    hide PriorityFor;
    assert forall k :: RevivedEntry(q, {1}, k) <==> k == (SESSION, 1);
  }

  lemma CountersExample(q: Queue)
    requires q == Alive(2, 2, {})
    ensures CountersRaised(q, {1}, BothAlive({}).seqs)
  {
    hide PriorityFor;
  }

  lemma RestartExample()
    ensures IsRecovery(Crashed(Comeback(10)).q, 0, BothAlive({}))
  {
    var q := Crashed(Comeback(10)).q;
    assert q == Alive(2, 2, {});
    OrphanExample();
    RebuiltExample(q);
    CountersExample(q);
    hide JobsRebuilt, ScheduleRebuilt, OrderRebuilt, CountersRaised, PriorityFor, OrphanIds, Rows;
  }

  lemma RestartsTo()
    ensures Restarted(Comeback(10), BothAlive({})) == Comeback(11)
  {
    OrphanExample();
    hide PriorityFor, OrphanIds;
    var m := Comeback(10);
    assert m.q.rows[1].createdAt == 0 && m.stamps == map[1 := 0, 2 := 0];
    assert m.stamps + (map id | id in OrphanIds(m.q) :: m.q.rows[id].createdAt) == m.stamps;
  }

  lemma RestartIsNext()
    ensures Next(1, Comeback(10), RestartStep(0), Comeback(11))
  {
    RestartExample();
    RestartsTo();
    hide IsRecovery, Alive, BothAlive, Restarted, PriorityFor, Rows, Stamps;
  }

  /** The restart finds its orphan behind a request. */
  lemma RestartIsDisorderly()
    ensures !Orderly(Comeback(10)) && SignedAlike(Comeback(10))
  {
    OrphanExample();
    hide OrphanIds, PriorityFor;
    var m := Comeback(10);
    assert m.sent[0].intent.sequence == 2 && m.q.rows[1].intent.sequence == 1 && 1 in OrphanIds(m.q);
  }

  lemma ComebackTicks()
    ensures Next(1, Comeback(1), TickStep(0, [1]), Comeback(2))
    ensures Next(1, Comeback(8), TickStep(0, [2]), Comeback(9))
    ensures Next(1, Comeback(11), TickStep(0, [1]), Comeback(12))
  {
    hide Next, Alive, BothAlive, Stamps, PriorityFor;
    TickAlone(1, 1, [], {});
    TickAlone(2, 2, [], {1});
    TickBoth([RequestOf(ExampleJob(2))]);
  }

  lemma ComebackEnqueues()
    ensures Next(1, Comeback(0), EnqueueStep(ExampleParams(), 1, Clock()), Comeback(1))
    ensures Next(1, Comeback(7), EnqueueStep(ExampleParams(), 2, Clock()), Comeback(8))
  {
    EnqueueExamples();
    assert 1 !in Comeback(0).q.rows && 2 !in Comeback(7).q.rows;
    hide Comeback, Enqueue;
  }

  lemma ComebackMoves()
    ensures forall i :: 2 <= i < 7 ==> Next(1, Comeback(i), AdvanceStep(1, Environment(false)), Comeback(i + 1))
    ensures Next(1, Comeback(9), AdvanceStep(2, Environment(true)), Comeback(10))
    ensures Next(1, Comeback(12), AdvanceStep(1, Environment(true)), Comeback(13))
  {
    hide Comeback, Advance;
    DropExamples();
    CleanExamples();
    SendExamples();
    forall i | 2 <= i < 7 ensures Next(1, Comeback(i), AdvanceStep(1, Environment(false)), Comeback(i + 1)) {
      assert i == 2 || i == 3 || i == 4 || i == 5 || i == 6;
    }
  }

  lemma ComebackRun(ms: seq<Machine>)
    requires |ms| == 14 && forall i :: 0 <= i < 14 ==> ms[i] == Comeback(i)
    ensures IsRun(1, ms, ComebackSteps())
  {
    assert Comeback(0) == InitialMachine();
    ComebackEnqueues();
    ComebackMoves();
    ComebackTicks();
    RestartIsNext();
    hide Comeback, Next, InitialMachine, Environment, ExampleParams, Clock;
  }

  lemma ComebackEnds(ms: seq<Machine>, steps: seq<Step>)
    requires |ms| == 14 && ms[10] == Comeback(10) && ms[13] == Comeback(13) && steps == ComebackSteps()
    ensures !RestartsOrderly(ms, steps) && RestartsSignAlike(ms, steps)
    ensures var sent := ms[|steps|].sent;
      && |sent| == 2 && sent[0].intent.sessionId == sent[1].intent.sessionId != NO_SESSION
      && sent[0].intent.sequence > sent[1].intent.sequence
  {
    RestartIsDisorderly();
    hide Orderly, SignedAlike, PriorityFor, Alive, BothAlive;
    assert steps[10].RestartStep?;
  }

  /** A restart may turn requests around: the sweep brings back a delivery that was dropped before a later one of its
      session was requested. The restart finds its orphans out of order; that they are signed alike does not help. */
  lemma RestartMayReorder() returns (ms: seq<Machine>, steps: seq<Step>)
    ensures IsRun(1, ms, steps) && !RestartsOrderly(ms, steps) && RestartsSignAlike(ms, steps)
    ensures var sent := ms[|steps|].sent;
      && |sent| == 2 && sent[0].intent.sessionId == sent[1].intent.sessionId != NO_SESSION
      && sent[0].intent.sequence > sent[1].intent.sequence
  {
    hide *;
    ms := [Comeback(0), Comeback(1), Comeback(2), Comeback(3), Comeback(4), Comeback(5), Comeback(6), Comeback(7),
           Comeback(8), Comeback(9), Comeback(10), Comeback(11), Comeback(12), Comeback(13)];
    steps := ComebackSteps();
    ComebackRun(ms);
    ComebackEnds(ms, steps);
  }
}
