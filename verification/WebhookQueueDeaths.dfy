/** Runs of one delivery that show what an exception or a death of the worker at the wrong command can do. */
module WebhookQueueDeaths {
  import opened Options
  import opened WebhookConstants
  import opened WebhookQueueState
  import opened WebhookQueueRuns
  import opened WebhookQueueOrder
  import opened WebhookQueueLedger
  import opened WebhookQueueFailures
  import opened WebhookQueueCounterexamples

  // ---------------------------------------------------------------- building runs

  function Failures(steps: seq<Step>): nat {
    if steps == [] then 0
    else Failures(steps[..|steps| - 1]) + if FailureFree(steps[|steps| - 1]) then 0 else 1
  }

  datatype Trace = Trace(ms: seq<Machine>, steps: seq<Step>) {
    /** A run, with so many failures and crashes. */
    ghost predicate Valid(failures: nat) {
      IsRun(1, ms, steps) && |ms| == |steps| + 1 && Failures(steps) == failures
    }

    ghost predicate ContinuedBy(t: Trace) {
      ms <= t.ms && steps <= t.steps
    }

    function Last(): Machine
      requires ms != []
    {
      ms[|ms| - 1]
    }

    function Then(step: Step, m: Machine): Trace {
      Trace(ms + [m], steps + [step])
    }
  }

  lemma Longer(t: Trace, failures: nat, step: Step, m: Machine)
    requires t.Valid(failures) && Next(1, t.Last(), step, m)
    ensures t.Then(step, m).Valid(if FailureFree(step) then failures else failures + 1)
    ensures t.Then(step, m).Last() == m
  {
    hide Next, InitialMachine;
    var t' := t.Then(step, m);
    assert t'.steps[..|t.steps|] == t.steps;
    forall i | 0 <= i < |t'.steps| ensures Next(1, t'.ms[i], t'.steps[i], t'.ms[i + 1]) {
      if i < |t.steps| {
        assert Next(1, t.ms[i], t.steps[i], t.ms[i + 1]);
      }
    }
  }

  // ---------------------------------------------------------------- the states of the one delivery

  function TheJob(): Job {
    ExampleJob(1)
  }

  /** The delivery waits, due and first in its session, and nothing is in progress. */
  predicate Idle(m: Machine) {
    && m.flights == map[] && m.q.active == 0 && m.q.processing == {} && m.q.inflightSessions == {}
    && m.q.scheduled == map[1 := 0] && m.q.ordering == map[(SESSION, 1) := 1] && m.q.jobs == map[1 := TheJob()]
    && 1 in m.q.rows
  }

  /** A worker is busy with it and has not begun to clean up. */
  predicate Busy(m: Machine, phase: Phase) {
    && m.flights == map[1 := Flight(TheJob(), phase)]
    && m.q.active == 1 && m.q.processing == {1} && m.q.inflightSessions == {SESSION}
    && m.q.scheduled == map[1 := 0] && m.q.ordering == map[(SESSION, 1) := 1] && m.q.jobs == map[1 := TheJob()]
    && 1 in m.q.rows
  }

  function Answered(outcome: Outcome): DeliveryResult {
    DeliveryResult(outcome, None, None)
  }

  function Answering(outcome: Outcome): Env {
    Env(true, Answered(outcome), 0, 0.0)
  }

  function Picked(m: Machine): Machine
    requires 1 in m.q.jobs
  {
    m.(q := m.q.(active := 1, processing := {1}, inflightSessions := {SESSION}),
       flights := map[1 := Flight(m.q.jobs[1], Calling)])
  }

  lemma PickIsNext(m: Machine)
    requires Idle(m)
    ensures Next(1, m, TickStep(0, [1]), Picked(m)) && Busy(Picked(m), Calling)
  {
    hide PriorityFor;
    assert (SESSION, 1) in m.q.ordering;
    OneSessionTick(m.q, 1);
    hide IsTick;
    DispatchesTo(m.q, 1, Picked(m).q);
    assert TakeOff(m, [1]) == map[1 := Flight(m.q.jobs[1], Calling)];
  }

  lemma AskIsNext(m: Machine, outcome: Outcome)
    requires Busy(m, Calling)
    ensures 1 in m.flights
    ensures var m' := Advance(m, 1, Answering(outcome));
      && Next(1, m, AdvanceStep(1, Answering(outcome)), m') && Busy(m', Recording(Answered(outcome)))
      && m'.q == m.q && m'.sent == m.sent + [RequestOf(TheJob())]
  {
    hide PriorityFor;
  }

  lemma RecordIsNext(m: Machine, outcome: Outcome, env: Outcome)
    requires Busy(m, Recording(Answered(outcome))) && !outcome.Retry?
    ensures 1 in m.flights
    ensures var m' := Advance(m, 1, Answering(env));
      && Next(1, m, AdvanceStep(1, Answering(env)), m') && m'.sent == m.sent && m'.q.deadLetters == m.q.deadLetters
      && (outcome.Success? ==> Busy(m', Unscheduling) && m'.q.rows[1].status.Delivered?)
      && (outcome.Dead? ==>
            Busy(m', Burying(Http4xx(None), EntryFor(TheJob(), Answered(outcome), 0))) && m'.q.rows[1].status.Dead?)
  {
    hide PriorityFor;
  }

  lemma BuryIsNext(m: Machine, outcome: Outcome, lastEntry: Attempt)
    requires Busy(m, Burying(Http4xx(None), lastEntry))
    ensures 1 in m.flights
    ensures var m' := Advance(m, 1, Answering(outcome));
      && Next(1, m, AdvanceStep(1, Answering(outcome)), m') && m'.sent == m.sent && 1 in m'.q.deadLetters
      && Busy(m', if 1 in m.q.deadLetters then Finishing else Unscheduling)
  {
    hide PriorityFor, LetterFor;
  }

  lemma FinishIsNext(m: Machine, outcome: Outcome)
    requires Busy(m, Finishing)
    ensures 1 in m.flights
    ensures var m' := Advance(m, 1, Answering(outcome));
      && Next(1, m, AdvanceStep(1, Answering(outcome)), m') && Idle(m') && m'.sent == m.sent
      && m'.q.deadLetters == m.q.deadLetters
  {
    hide PriorityFor;
  }

  /** The clean-up has taken it off the schedule and not yet out of its session. */
  predicate HalfWay(m: Machine, phase: Phase) {
    && m.flights == map[1 := Flight(TheJob(), phase)]
    && m.q.active == 1 && m.q.processing == {1} && m.q.inflightSessions == {SESSION}
    && m.q.scheduled == map[] && m.q.ordering == map[(SESSION, 1) := 1] && m.q.jobs == map[1 := TheJob()]
    && 1 in m.q.rows
  }

  lemma UnscheduleIsNext(m: Machine, outcome: Outcome)
    requires Busy(m, Unscheduling)
    ensures 1 in m.flights
    ensures var m' := Advance(m, 1, Answering(outcome));
      Next(1, m, AdvanceStep(1, Answering(outcome)), m') && HalfWay(m', Unordering)
  {
    hide PriorityFor;
    assert m.q.scheduled - {1} == map[];
  }

  lemma ThrowIsNext(m: Machine)
    requires HalfWay(m, Unordering)
    ensures var m' := m.(flights := map[1 := Flight(TheJob(), Finishing)]);
      Next(1, m, FailStep(1), m') && HalfWay(m', Finishing)
  {
    hide PriorityFor;
    assert m.flights[1 := Flight(TheJob(), Finishing)] == map[1 := Flight(TheJob(), Finishing)];
  }

  lemma EndIsNext(m: Machine, outcome: Outcome)
    requires HalfWay(m, Finishing)
    ensures 1 in m.flights
    ensures var m' := Advance(m, 1, Answering(outcome));
      Next(1, m, AdvanceStep(1, Answering(outcome)), m') && Stuck(m', SESSION, 1)
  {
    hide PriorityFor;
  }

  lemma CrashIsNext(m: Machine, phase: Phase)
    requires Busy(m, phase)
    ensures Next(1, m, CrashStep, Crashed(m)) && Idle(Crashed(m)) && Crashed(m).sent == m.sent
      && Crashed(m).q.deadLetters == m.q.deadLetters && Crashed(m).q.rows == m.q.rows
  {
  }

  // ---------------------------------------------------------------- one more step of a run

  /** How often the delivery has been requested, and whether it has a dead letter. */
  predicate History(m: Machine, requests: nat, lettered: bool) {
    Requests(m.sent, 1) == requests && (1 in m.q.deadLetters <==> lettered)
  }

  lemma Pick(t: Trace, failures: nat, requests: nat, lettered: bool) returns (t': Trace)
    requires t.Valid(failures) && Idle(t.Last()) && History(t.Last(), requests, lettered)
    ensures t'.Valid(failures) && Busy(t'.Last(), Calling) && History(t'.Last(), requests, lettered)
    ensures |t'.steps| == |t.steps| + 1 && t.ContinuedBy(t')
  {
    hide Next, Requests, Busy;
    PickIsNext(t.Last());
    t' := t.Then(TickStep(0, [1]), Picked(t.Last()));
    Longer(t, failures, TickStep(0, [1]), Picked(t.Last()));
  }

  lemma Ask(t: Trace, failures: nat, requests: nat, lettered: bool, outcome: Outcome) returns (t': Trace)
    requires t.Valid(failures) && Busy(t.Last(), Calling) && History(t.Last(), requests, lettered)
    ensures t'.Valid(failures) && Busy(t'.Last(), Recording(Answered(outcome)))
    ensures History(t'.Last(), requests + 1, lettered) && |t'.steps| == |t.steps| + 1 && t.ContinuedBy(t')
  {
    hide Next, Requests, Busy, Advance;
    AskIsNext(t.Last(), outcome);
    RequestsElsewhere(t.Last().sent, RequestOf(TheJob()), 1);
    var m := Advance(t.Last(), 1, Answering(outcome));
    t' := t.Then(AdvanceStep(1, Answering(outcome)), m);
    Longer(t, failures, AdvanceStep(1, Answering(outcome)), m);
  }

  lemma Note(t: Trace, failures: nat, requests: nat, lettered: bool, outcome: Outcome) returns (t': Trace)
    requires t.Valid(failures) && Busy(t.Last(), Recording(Answered(outcome))) && !outcome.Retry?
    requires History(t.Last(), requests, lettered)
    ensures t'.Valid(failures) && History(t'.Last(), requests, lettered)
    ensures |t'.steps| == |t.steps| + 1 && t.ContinuedBy(t')
    ensures 1 in t'.Last().q.rows
    ensures outcome.Success? ==> Busy(t'.Last(), Unscheduling) && t'.Last().q.rows[1].status.Delivered?
    ensures outcome.Dead? ==>
      && Busy(t'.Last(), Burying(Http4xx(None), EntryFor(TheJob(), Answered(outcome), 0)))
      && t'.Last().q.rows[1].status.Dead?
  {
    hide Next, Requests, Advance;
    RecordIsNext(t.Last(), outcome, outcome);
    var m := Advance(t.Last(), 1, Answering(outcome));
    t' := t.Then(AdvanceStep(1, Answering(outcome)), m);
    Longer(t, failures, AdvanceStep(1, Answering(outcome)), m);
  }

  lemma BuryOnce(t: Trace, failures: nat, requests: nat, lettered: bool, lastEntry: Attempt) returns (t': Trace)
    requires t.Valid(failures) && Busy(t.Last(), Burying(Http4xx(None), lastEntry))
    requires History(t.Last(), requests, lettered)
    ensures t'.Valid(failures) && Busy(t'.Last(), if lettered then Finishing else Unscheduling)
    ensures History(t'.Last(), requests, true) && |t'.steps| == |t.steps| + 1 && t.ContinuedBy(t')
  {
    hide Next, Requests, Busy, Advance;
    BuryIsNext(t.Last(), Success, lastEntry);
    var m := Advance(t.Last(), 1, Answering(Success));
    t' := t.Then(AdvanceStep(1, Answering(Success)), m);
    Longer(t, failures, AdvanceStep(1, Answering(Success)), m);
  }

  lemma Finish(t: Trace, failures: nat, requests: nat, lettered: bool) returns (t': Trace)
    requires t.Valid(failures) && Busy(t.Last(), Finishing) && History(t.Last(), requests, lettered)
    ensures t'.Valid(failures) && Idle(t'.Last()) && History(t'.Last(), requests, lettered)
    ensures |t'.steps| == |t.steps| + 1 && t.ContinuedBy(t')
  {
    hide Next, Requests, Busy, Idle, Advance;
    FinishIsNext(t.Last(), Success);
    var m := Advance(t.Last(), 1, Answering(Success));
    t' := t.Then(AdvanceStep(1, Answering(Success)), m);
    Longer(t, failures, AdvanceStep(1, Answering(Success)), m);
  }

  lemma Crash(t: Trace, failures: nat, requests: nat, lettered: bool, phase: Phase) returns (t': Trace)
    requires t.Valid(failures) && Busy(t.Last(), phase) && History(t.Last(), requests, lettered)
    ensures t' == t.Then(CrashStep, Crashed(t.Last()))
    ensures t'.Valid(failures + 1) && Idle(t'.Last()) && History(t'.Last(), requests, lettered)
  {
    hide Next, Requests, Busy, Idle, Crashed;
    CrashIsNext(t.Last(), phase);
    t' := t.Then(CrashStep, Crashed(t.Last()));
    Longer(t, failures, CrashStep, Crashed(t.Last()));
  }

  lemma Begin() returns (t: Trace)
    ensures t.Valid(0) && Idle(t.Last()) && History(t.Last(), 0, false) && |t.steps| == 1
  {
    hide Next;
    t := Trace([Comeback(0), Comeback(1)], [EnqueueStep(ExampleParams(), 1, Clock())]);
    ComebackEnqueues();
  }

  /** The delivery is picked, requested and its answer recorded. */
  lemma Call(t: Trace, failures: nat, requests: nat, lettered: bool, outcome: Outcome) returns (t': Trace)
    requires t.Valid(failures) && Idle(t.Last()) && History(t.Last(), requests, lettered) && !outcome.Retry?
    ensures t'.Valid(failures) && History(t'.Last(), requests + 1, lettered) && |t'.steps| == |t.steps| + 3
    ensures t.ContinuedBy(t') && 1 in t'.Last().q.rows
    ensures outcome.Success? ==> Busy(t'.Last(), Unscheduling) && t'.Last().q.rows[1].status.Delivered?
    ensures outcome.Dead? ==>
      && Busy(t'.Last(), Burying(Http4xx(None), EntryFor(TheJob(), Answered(outcome), 0)))
      && t'.Last().q.rows[1].status.Dead?
  {
    hide Trace.Valid, Idle, Busy, History, TheJob, Answered, EntryFor;
    t' := Pick(t, failures, requests, lettered);
    t' := Ask(t', failures, requests, lettered, outcome);
    t' := Note(t', failures, requests + 1, lettered, outcome);
  }

  // ---------------------------------------------------------------- main results

  /** With a dead letter already there, every further pass requests the delivery again and leaves it as it was. */
  lemma AgainAndAgain(t: Trace, failures: nat, requests: nat) returns (t': Trace)
    requires t.Valid(failures) && Idle(t.Last()) && History(t.Last(), requests, true)
    ensures t'.Valid(failures) && Idle(t'.Last()) && History(t'.Last(), requests + 1, true)
    ensures |t'.steps| == |t.steps| + 5 && t.ContinuedBy(t')
  {
    hide Trace.Valid, Idle, Busy, History, TheJob, Answered, EntryFor;
    t' := Call(t, failures, requests, true, Outcome.Dead);
    t' := BuryOnce(t', failures, requests + 1, true, EntryFor(TheJob(), Answered(Outcome.Dead), 0));
    t' := Finish(t', failures, requests + 1, true);
  }

  lemma {:induction false} Rounds(n: nat) returns (t: Trace)
    ensures t.Valid(1) && Idle(t.Last()) && History(t.Last(), n + 1, true)
    ensures |t.steps| == 6 + 5 * n && t.steps[5] == CrashStep
  {
    hide Trace.Valid, Idle, Busy, History, TheJob, Answered, EntryFor;
    if n == 0 {
      t := Begin();
      t := Call(t, 0, 0, false, Outcome.Dead);
      t := BuryOnce(t, 0, 1, false, EntryFor(TheJob(), Answered(Outcome.Dead), 0));
      t := Crash(t, 0, 1, true, Unscheduling);
    } else {
      t := Rounds(n - 1);
      t := AgainAndAgain(t, 1, n);
    }
  }

  /** One death is enough: for every number there is a run with a single failure, a crash of the worker after it
      inserted the dead letter, in which one delivery is requested that often. */
  lemma RequestedWithoutEnd(n: nat) returns (ms: seq<Machine>, steps: seq<Step>)
    ensures IsRun(1, ms, steps) && |ms| == |steps| + 1 && Failures(steps) == 1
    ensures |steps| == 6 + 5 * n && steps[5] == CrashStep
    ensures Requests(ms[|steps|].sent, 1) == n + 1
  {
    hide IsRun, Idle, Failures, Requests;
    var t := Rounds(n);
    ms, steps := t.ms, t.steps;
  }

  /** Delivered need not stay delivered: a worker that dies between recording the delivery and taking it off the
      schedule leaves it to be requested again, and another answer makes it dead. */
  lemma DeliveredMayBecomeDead() returns (ms: seq<Machine>, steps: seq<Step>, i: nat)
    ensures IsRun(1, ms, steps) && |ms| == |steps| + 1 && Failures(steps) == 1 && i <= |steps|
    ensures 1 in ms[i].q.rows && ms[i].q.rows[1].status.Delivered?
    ensures 1 in ms[|steps|].q.rows && ms[|steps|].q.rows[1].status.Dead?
  {
    hide IsRun, Idle, Busy, Failures, Requests, Crashed;
    var t := Begin();
    t := Call(t, 0, 0, false, Success);
    i := |t.steps|;
    var t1 := Crash(t, 0, 1, false, Unscheduling);
    var t2 := Call(t1, 1, 1, false, Outcome.Dead);
    ms, steps := t2.ms, t2.steps;
  }

  /** No death is needed to block a session: an exception while its head is cleaned up is enough, such as a failing
      command between taking it off the schedule and out of the session. */
  lemma SessionGetsStuck() returns (ms: seq<Machine>, steps: seq<Step>)
    ensures IsRun(1, ms, steps) && |ms| == |steps| + 1 && |steps| == 7
    ensures Failures(steps) == 1 && steps[5] == FailStep(1)
    ensures Stuck(ms[7], SESSION, 1)
  {
    hide IsRun, Next, Advance, Stuck, Failures, Requests, Busy, HalfWay, History;
    var t := Begin();
    t := Call(t, 0, 0, false, Success);
    UnscheduleIsNext(t.Last(), Success);
    var t1 := Command(t, 0);
    ThrowIsNext(t1.Last());
    var thrown := t1.Last().(flights := map[1 := Flight(TheJob(), Finishing)]);
    Longer(t1, 0, FailStep(1), thrown);
    EndIsNext(thrown, Success);
    var t2 := Command(t1.Then(FailStep(1), thrown), 1);
    ms, steps := t2.ms, t2.steps;
  }

  lemma Command(t: Trace, failures: nat) returns (t': Trace)
    requires t.Valid(failures) && 1 in t.Last().flights
    requires Next(1, t.Last(), AdvanceStep(1, Answering(Success)), Advance(t.Last(), 1, Answering(Success)))
    ensures t' == t.Then(AdvanceStep(1, Answering(Success)), Advance(t.Last(), 1, Answering(Success)))
    ensures t'.Valid(failures)
  {
    hide Next, Advance;
    t' := t.Then(AdvanceStep(1, Answering(Success)), Advance(t.Last(), 1, Answering(Success)));
    Longer(t, failures, AdvanceStep(1, Answering(Success)), Advance(t.Last(), 1, Answering(Success)));
  }
}
