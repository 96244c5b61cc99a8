/** The queue drains: what every finished job uses up, and how many rounds empty the queue. */
module WebhookQueueDrain {
  import opened Options
  import opened WebhookConstants
  import opened WebhookQueueState
  import opened WebhookQueueRuns
  import opened WebhookQueueOrder
  import opened WebhookQueueLedger

  /** Attempts a delivery has left, and one more for a job in progress that has used its attempt up. */
  function Left(m: Machine, id: DeliveryId): nat
    requires id in m.q.rows
  {
    var row := m.q.rows[id];
    (if Open(row.status) && id !in m.dropped && row.attempts < MAX_ATTEMPTS then MAX_ATTEMPTS - row.attempts else 0)
    + (if id in m.flights && !m.flights[id].phase.Calling? && !m.flights[id].phase.Recording? then 1 else 0)
  }

  /** One token for each attempt left: their number is the sum of `Left` over all deliveries. */
  function Tokens(m: Machine): set<(DeliveryId, nat)> {
    set id, k: nat | id in m.q.rows.Keys && k < Left(m, id) :: (id, k)
  }

  predicate Enqueues(step: Step) {
    step.EnqueueStep? || step.RequeueStep?
  }

  /** The step ends a `process` call. */
  predicate Finishes(m: Machine, step: Step) {
    step.AdvanceStep? && step.id in m.flights && m.flights[step.id].phase.Finishing?
  }

  /** The number of calls ended in a stretch of a run. */
  function FinishedIn(ms: seq<Machine>, steps: seq<Step>, i: nat, j: nat): nat
    requires i <= j <= |steps| < |ms|
    decreases j - i
  {
    if i == j then 0 else FinishedIn(ms, steps, i, j - 1) + if Finishes(ms[j - 1], steps[j - 1]) then 1 else 0
  }

  // ---------------------------------------------------------------- one step

  lemma RecordSpends(m: Machine, id: DeliveryId, env: Env)
    requires OwnJob(m, id) && Kept(m, id) && m.flights[id].phase.Recording?
    ensures id in Advance(m, id, env).q.rows && Left(Advance(m, id, env), id) <= Left(m, id)
  {
    var job, result := m.flights[id].job, m.flights[id].phase.result;
    RecordKeepsIntents(m.q, job, result, Judge(job, result, env.now, env.rand), env.now);
    hide Accounted, LogComplete, Traced;
  }

  lemma CallSpends(m: Machine, id: DeliveryId, env: Env)
    requires OwnJob(m, id) && Kept(m, id) && m.flights[id].phase.Calling?
    ensures id in Advance(m, id, env).q.rows && Left(Advance(m, id, env), id) <= Left(m, id)
  {
    hide Accounted, LogComplete, RequestOf;
  }

  lemma CleanUpSpends(m: Machine, id: DeliveryId, env: Env)
    requires OwnJob(m, id) && Kept(m, id)
    requires m.flights[id].phase.Burying? || m.flights[id].phase.Unscheduling? || m.flights[id].phase.Unordering?
      || m.flights[id].phase.Deleting?
    ensures id in Advance(m, id, env).q.rows && Left(Advance(m, id, env), id) <= Left(m, id)
  {
    hide Accounted, LogComplete, LetterFor;
  }

  lemma LastSpends(m: Machine, id: DeliveryId, env: Env)
    requires OwnJob(m, id) && Kept(m, id)
    requires m.flights[id].phase.Rewriting? || m.flights[id].phase.Rescheduling? || m.flights[id].phase.Finishing?
    ensures id in Advance(m, id, env).q.rows
    ensures Left(Advance(m, id, env), id) + (if m.flights[id].phase.Finishing? then 1 else 0) <= Left(m, id)
  {
    hide Accounted, LogComplete;
  }

  /** A command never adds to what its delivery has left, and the last one takes one away. */
  lemma AdvanceSpends(m: Machine, id: DeliveryId, env: Env)
    requires OwnJob(m, id) && Kept(m, id)
    ensures id in Advance(m, id, env).q.rows
    ensures Left(Advance(m, id, env), id) + (if m.flights[id].phase.Finishing? then 1 else 0) <= Left(m, id)
  {
    hide Kept, Advance, Left;
    if m.flights[id].phase.Recording? {
      RecordSpends(m, id, env);
    } else if m.flights[id].phase.Calling? {
      CallSpends(m, id, env);
    } else if m.flights[id].phase.Rewriting? || m.flights[id].phase.Rescheduling? || m.flights[id].phase.Finishing? {
      LastSpends(m, id, env);
    } else {
      CleanUpSpends(m, id, env);
    }
  }

  lemma SameLeft(m: Machine, m': Machine, id: DeliveryId)
    requires id in m.q.rows && id in m'.q.rows && SameRecord(m, m', id)
    ensures Left(m', id) == Left(m, id)
  {
    hide Requests;
  }

  lemma FewerTokens(m: Machine, m': Machine, id: DeliveryId, spent: nat)
    requires m'.q.rows.Keys == m.q.rows.Keys && id in m.q.rows && spent <= 1
    requires Left(m', id) + spent <= Left(m, id)
    requires forall x :: x in m.q.rows && x != id ==> Left(m', x) == Left(m, x)
    ensures |Tokens(m')| + spent <= |Tokens(m)|
  {
    hide Left;
    var before, after := Tokens(m), Tokens(m');
    if spent == 0 {
      Subset(after, before);
    } else {
      var token := (id, Left(m, id) - 1);
      assert token in before && token !in after;
      Subset(after, before - {token});
    }
  }

  lemma Subset<T>(a: set<T>, b: set<T>)
    requires a <= b
    ensures |a| <= |b|
  {
    assert b == a + (b - a);
  }

  lemma AdvanceSpendsTokens(m: Machine, id: DeliveryId, env: Env)
    requires Ledger(m) && id in m.flights
    ensures |Tokens(Advance(m, id, env))| + (if m.flights[id].phase.Finishing? then 1 else 0) <= |Tokens(m)|
  {
    var m' := Advance(m, id, env);
    FlightFacts(m, id);
    hide Ledger, Kept, OwnJob, Advance, SameRecord, Left, Tokens, RowsFirst;
    AdvanceKeepsRows(m, id, env);
    AdvanceSpends(m, id, env);
    forall x | x in m.q.rows && x != id ensures Left(m', x) == Left(m, x) {
      AdvanceElsewhere(m, id, env, x);
      SameLeft(m, m', x);
    }
    FewerTokens(m, m', id, if m.flights[id].phase.Finishing? then 1 else 0);
  }

  lemma DispatchKeepsLeft(m: Machine, picked: seq<DeliveryId>, id: DeliveryId)
    requires id in m.q.rows && forall x :: x in picked ==> x in m.q.jobs && x !in m.flights
    ensures var m' := m.(q := Dispatch(m.q, picked, {}), flights := TakeOff(m, picked));
      id in m'.q.rows && Left(m', id) == Left(m, id)
  {
  }

  lemma TickKeepsTokens(maxConcurrency: int, m: Machine, now: int, picked: seq<DeliveryId>, m': Machine)
    requires Ledger(m) && Next(maxConcurrency, m, TickStep(now, picked), m')
    ensures Tokens(m') == Tokens(m)
  {
    hide Ledger, Eligible, IsTick, TakeOff, Left, Dispatch;
    TickIsDispatch(maxConcurrency, m, now, picked, m');
    if m' != m {
      PickedAreIdle(m, now, picked);
      DispatchKeepsTables(m, picked);
      forall x | x in m.q.rows ensures Left(m', x) == Left(m, x) {
        DispatchKeepsLeft(m, picked, x);
      }
    }
  }

  lemma StepSpends(maxConcurrency: int, m: Machine, step: Step, m': Machine)
    requires Ledger(m) && Next(maxConcurrency, m, step, m') && FailureFree(step) && !Enqueues(step)
    ensures |Tokens(m')| + (if Finishes(m, step) then 1 else 0) <= |Tokens(m)|
  {
    hide Ledger, IsTick, Advance, Tokens;
    match step
    case TickStep(now, picked) => TickKeepsTokens(maxConcurrency, m, now, picked, m');
    case AdvanceStep(id, env) => AdvanceSpendsTokens(m, id, env);
  }

  // ---------------------------------------------------------------- a stretch without enqueues

  ghost predicate NoEnqueue(steps: seq<Step>, i: nat, j: nat)
    requires i <= j <= |steps|
  {
    forall n :: i <= n < j ==> !Enqueues(steps[n])
  }

  lemma StepInLedger(maxConcurrency: int, ms: seq<Machine>, steps: seq<Step>, i: nat)
    requires IsFailureFreeRun(maxConcurrency, ms, steps) && i < |steps|
    ensures |ms| == |steps| + 1 && Ledger(ms[i]) && FailureFree(steps[i])
    ensures Next(maxConcurrency, ms[i], steps[i], ms[i + 1])
  {
    hide Next, Ledger;
    FailureFreeIsHarmless(maxConcurrency, ms, steps);
    RunKeepsLedger(maxConcurrency, ms, steps);
  }

  /** In a failure-free stretch without enqueues every finished call, requested or dropped, uses up one attempt left: at
      most as many calls finish as the attempts left at its start, less those left at its end. */
  lemma {:induction false} StretchSpends(maxConcurrency: int, ms: seq<Machine>, steps: seq<Step>, i: nat, j: nat)
    requires IsFailureFreeRun(maxConcurrency, ms, steps) && i <= j <= |steps| && NoEnqueue(steps, i, j)
    ensures FinishedIn(ms, steps, i, j) + |Tokens(ms[j])| <= |Tokens(ms[i])|
    decreases j - i
  {
    hide Ledger, Next, Tokens, Finishes, Enqueues, IsFailureFreeRun;
    if i < j {
      StepInLedger(maxConcurrency, ms, steps, j - 1);
      StretchSpends(maxConcurrency, ms, steps, i, j - 1);
      StepSpends(maxConcurrency, ms[j - 1], steps[j - 1], ms[j]);
    }
  }

  ghost predicate NothingLive(m: Machine) {
    forall id :: id in m.q.rows ==> !Live(m, id)
  }

  /** With nothing in progress, attempts are left exactly while something is live. */
  lemma IdleTokens(m: Machine)
    requires Ledger(m) && m.flights == map[]
    ensures Tokens(m) == {} <==> NothingLive(m)
  {
    forall id | id in m.q.rows ensures Live(m, id) <==> Left(m, id) > 0 {
      assert Kept(m, id);
    }
    hide Left, Live, Ledger;
    if !NothingLive(m) {
      var id :| id in m.q.rows && Live(m, id);
      assert (id, 0) in Tokens(m);
    }
  }

  lemma SomeFinishes(maxConcurrency: int, ms: seq<Machine>, steps: seq<Step>, i: nat, j: nat)
    requires IsFailureFreeRun(maxConcurrency, ms, steps) && i <= j <= |steps|
    requires ms[i].flights != map[] && ms[j].flights == map[]
    ensures FinishedIn(ms, steps, i, j) >= 1
    decreases j - i
  {
    if i < j {
      hide Next, Finishes;
      assert Next(maxConcurrency, ms[j - 1], steps[j - 1], ms[j - 1 + 1]) && FailureFree(steps[j - 1]);
      if ms[j - 1].flights == map[] {
        SomeFinishes(maxConcurrency, ms, steps, i, j - 1);
      } else {
        OnlyFinishingEmpties(maxConcurrency, ms[j - 1], steps[j - 1], ms[j]);
      }
    }
  }

  lemma OnlyFinishingEmpties(maxConcurrency: int, m: Machine, step: Step, m': Machine)
    requires Next(maxConcurrency, m, step, m') && FailureFree(step) && m.flights != map[] && m'.flights == map[]
    ensures Finishes(m, step)
  {
    hide IsTick, Enqueued, Requeued, Record, Judge, AfterRecord, LetterFor, TakeOff;
    if step.TickStep? {
      TakeOffAdds(m, step.picked);
    }
  }

  lemma TakeOffAdds(m: Machine, picked: seq<DeliveryId>)
    requires forall id :: id in picked ==> id in m.q.jobs
    ensures m.flights.Keys <= TakeOff(m, picked).Keys
    ensures m.flights != map[] ==> TakeOff(m, picked) != map[]
  {
    if id :| id in m.flights {
      assert id in TakeOff(m, picked);
    }
  }

  // ---------------------------------------------------------------- rounds

  /** A round begins with nothing in progress, every due time past, and a pass. */
  ghost predicate BeginsRound(ms: seq<Machine>, steps: seq<Step>, r: nat)
    requires r < |steps| < |ms|
  {
    && ms[r].flights == map[] && steps[r].TickStep?
    && forall x :: x in ms[r].q.scheduled ==> ms[r].q.scheduled[x] <= steps[r].now
  }

  lemma PickedAreInProgress(maxConcurrency: int, m: Machine, now: int, picked: seq<DeliveryId>, m': Machine)
    requires Next(maxConcurrency, m, TickStep(now, picked), m') && picked != []
    ensures m'.flights != map[]
  {
    hide IsTick;
    assert picked[0] in picked;
    assert picked[0] in TakeOff(m, picked);
  }

  /** A round that starts with something live and ends with nothing in progress leaves fewer attempts. */
  lemma RoundSpends(maxConcurrency: int, ms: seq<Machine>, steps: seq<Step>, r: nat, s: nat)
    requires IsFailureFreeRun(maxConcurrency, ms, steps) && maxConcurrency >= 1 && r < s <= |steps|
      && NoEnqueue(steps, r, s)
    requires BeginsRound(ms, steps, r) && ms[s].flights == map[]
    ensures |Tokens(ms[s])| <= |Tokens(ms[r])|
    ensures !NothingLive(ms[r]) ==> |Tokens(ms[s])| < |Tokens(ms[r])|
  {
    hide Tokens, Live, Ledger, IsTick;
    StretchSpends(maxConcurrency, ms, steps, r, s);
    if !NothingLive(ms[r]) {
      assert Next(maxConcurrency, ms[r], steps[r], ms[r + 1]);
      FailureFreeIsHarmless(maxConcurrency, ms, steps);
      QueueNeverDeadlocks(maxConcurrency, ms, steps, r, steps[r].now, steps[r].picked, ms[r + 1].q);
      PickedAreInProgress(maxConcurrency, ms[r], steps[r].now, steps[r].picked, ms[r + 1]);
      hide Next;
      SomeFinishes(maxConcurrency, ms, steps, r + 1, s);
      FinishedSplits(ms, steps, r, r + 1, s);
    }
  }

  lemma FinishedSplits(ms: seq<Machine>, steps: seq<Step>, i: nat, j: nat, k: nat)
    requires i <= j <= k <= |steps| < |ms|
    ensures FinishedIn(ms, steps, i, k) == FinishedIn(ms, steps, i, j) + FinishedIn(ms, steps, j, k)
    decreases k - j
  {
    if j < k {
      FinishedSplits(ms, steps, i, j, k - 1);
    }
  }

  /** Consecutive rounds of a run. */
  ghost predicate AreRounds(ms: seq<Machine>, steps: seq<Step>, rounds: seq<nat>)
    requires |ms| == |steps| + 1
  {
    && (forall t :: 0 <= t < |rounds| ==> rounds[t] < |steps| && BeginsRound(ms, steps, rounds[t]))
    && forall t :: 0 <= t < |rounds| - 1 ==> rounds[t] < rounds[t + 1]
  }

  lemma RoundsAscend(ms: seq<Machine>, steps: seq<Step>, rounds: seq<nat>, t: nat)
    requires |ms| == |steps| + 1 && AreRounds(ms, steps, rounds) && t < |rounds|
    ensures rounds[0] <= rounds[t]
  {
    if t > 0 {
      RoundsAscend(ms, steps, rounds, t - 1);
    }
  }

  /** One round after another, until nothing is left. */
  lemma NextRound(maxConcurrency: int, ms: seq<Machine>, steps: seq<Step>, r: nat, s: nat, start: nat, t: nat)
    requires IsFailureFreeRun(maxConcurrency, ms, steps) && maxConcurrency >= 1 && r < s <= |steps|
      && NoEnqueue(steps, r, s)
    requires BeginsRound(ms, steps, r) && ms[s].flights == map[]
    requires |Tokens(ms[r])| + t <= start || Tokens(ms[r]) == {}
    ensures |Tokens(ms[s])| + t + 1 <= start || Tokens(ms[s]) == {}
  {
    FailureFreeIsHarmless(maxConcurrency, ms, steps);
    RunKeepsLedger(maxConcurrency, ms, steps);
    hide Tokens, Ledger, Next, NothingLive, IsFailureFreeRun, NoEnqueue;
    RoundSpends(maxConcurrency, ms, steps, r, s);
    IdleTokens(ms[r]);
    NoneIsEmpty(Tokens(ms[r]));
    NoneIsEmpty(Tokens(ms[s]));
  }

  lemma {:induction false} RoundsSpend(maxConcurrency: int, ms: seq<Machine>, steps: seq<Step>, rounds: seq<nat>,
        t: nat)
    requires IsFailureFreeRun(maxConcurrency, ms, steps) && maxConcurrency >= 1
    requires AreRounds(ms, steps, rounds) && t < |rounds| && NoEnqueue(steps, rounds[0], |steps|)
    ensures |Tokens(ms[rounds[t]])| + t <= |Tokens(ms[rounds[0]])| || Tokens(ms[rounds[t]]) == {}
  {
    if t > 0 {
      var r, s := rounds[t - 1], rounds[t];
      RoundsAscend(ms, steps, rounds, t - 1);
      assert BeginsRound(ms, steps, r) && BeginsRound(ms, steps, s) && rounds[t - 1] < rounds[t - 1 + 1];
      hide Tokens, IsFailureFreeRun;
      RoundsSpend(maxConcurrency, ms, steps, rounds, t - 1);
      NextRound(maxConcurrency, ms, steps, r, s, |Tokens(ms[rounds[0]])|, t - 1);
    }
  }

  lemma NoneIsEmpty<T>(a: set<T>)
    ensures |a| == 0 <==> a == {}
  {
  }

  /** The queue drains: whatever the merchants answer, once no more is enqueued, as many rounds as attempts were left at
      the first one end with nothing live. */
  lemma QueueDrains(maxConcurrency: int, ms: seq<Machine>, steps: seq<Step>, rounds: seq<nat>, t: nat)
    requires IsFailureFreeRun(maxConcurrency, ms, steps) && maxConcurrency >= 1
    requires AreRounds(ms, steps, rounds) && t < |rounds| && NoEnqueue(steps, rounds[0], |steps|)
    requires t >= |Tokens(ms[rounds[0]])|
    ensures NothingLive(ms[rounds[t]])
  {
    RoundsSpend(maxConcurrency, ms, steps, rounds, t);
    FailureFreeIsHarmless(maxConcurrency, ms, steps);
    RunKeepsLedger(maxConcurrency, ms, steps);
    assert BeginsRound(ms, steps, rounds[t]);
    hide Tokens, Ledger, NothingLive;
    NoneIsEmpty(Tokens(ms[rounds[t]]));
    IdleTokens(ms[rounds[t]]);
  }

  // ---------------------------------------------------------------- how many attempts can be left

  function LiveIds(m: Machine): set<DeliveryId> {
    set id | id in m.q.rows.Keys && Live(m, id)
  }

  lemma {:induction false} FivePerId(tokens: set<(DeliveryId, nat)>, ids: set<DeliveryId>)
    requires forall token :: token in tokens ==> token.0 in ids && token.1 < MAX_ATTEMPTS
    ensures |tokens| <= MAX_ATTEMPTS * |ids|
  {
    if ids == {} {
      assert tokens == {};
    } else {
      var id :| id in ids;
      var own := {(id, 0), (id, 1), (id, 2), (id, 3), (id, 4)};
      FivePerId(tokens - own, ids - {id});
      Subset(tokens, (tokens - own) + own);
      assert |ids| == |ids - {id}| + 1;
      assert |(tokens - own) + own| <= |tokens - own| + |own|;
    }
  }

  /** With nothing in progress at most five attempts are left for each live delivery: n of them are gone after 5n
      rounds. */
  lemma FiveAttemptsEach(m: Machine)
    requires Ledger(m) && m.flights == map[]
    ensures |Tokens(m)| <= MAX_ATTEMPTS * |LiveIds(m)|
  {
    forall id | id in m.q.rows ensures Left(m, id) <= MAX_ATTEMPTS && (Live(m, id) <==> Left(m, id) > 0) {
      assert Kept(m, id);
    }
    hide Left, Live, Ledger;
    FivePerId(Tokens(m), LiveIds(m));
  }
}
