/** Two things the session tables do not promise, each shown by a run, and exactly when they hold. */
module SessionCounterexamples {
  import opened Options
  import opened AmountUtils
  import opened CheckoutTables
  import opened SessionProtocol
  import opened SessionSinglePayment

  function ExampleTerms(): Terms {
    Terms(7, "1", NATIVE_ASSET, None, "G", Some("m"), 10, 0)
  }

  function ExamplePayment(tx: TxHash): Operation {
    Operation(true, "m", tx, "1", None, None, "S")
  }

  lemma ExamplePays(tx: TxHash, terms: Terms)
    requires terms == ExampleTerms().(createdAt := terms.createdAt)
    ensures DetectorAccepts(ExamplePayment(tx), terms)
  {
    var one := Numeral(false, "1", None);
    assert one.Text() == "1";
    ParseIsExact(one, STELLAR_SCALE);
  }

  const LATE: int := STALE_MS + 1

  function ExampleTables(status: Status, changedAt: int, paid: set<TxHash>): Tables {
    Tables(map[1 := Session(ExampleTerms(), status, changedAt)],
           map k: (TxHash, SessionId) | k in (set tx | tx in paid :: (tx, 1)) ::
             PaymentOf(ExamplePayment(k.0), ExampleTerms(), LATE))
  }

  lemma CreateExample()
    ensures Tables(map[], map[]).(sessions := map[1 := NewSession(ExampleTerms(), 0)]) == ExampleTables(Pending, 0, {})
  {
  }

  lemma ClaimExample(changedAt: int, now: int, tx: TxHash)
    ensures MayClaim(ExampleTables(Pending, changedAt, {}), ExamplePayment(tx), 1)
    ensures Claim(ExampleTables(Pending, changedAt, {}), 1, now) == ExampleTables(Processing, now, {})
  {
    ExamplePays(tx, ExampleTerms());
    hide DetectorAccepts;
  }

  /** A claim of the example session, whatever else is under way. */
  lemma ExampleClaimed(w: World, changedAt: int, tx: TxHash, t: nat, w': World)
    requires w.db == ExampleTables(Pending, changedAt, {}) && t !in w.tasks
    requires w' == World(ExampleTables(Processing, w.clock, {}), w.tasks[t := Finalizing(1, ExamplePayment(tx))],
                         w.clock, w.seen + {ExamplePayment(tx)}, w.claims + multiset{1}, w.reverts, w.announced)
    ensures Next(w, ClaimFor(1, ExamplePayment(tx), t), w')
  {
    hide MayClaim, Claim, ExampleTables, ExamplePayment;
    ClaimExample(changedAt, w.clock, tx);
  }

  lemma FinalizeExample(status: Status, paid: set<TxHash>, tx: TxHash)
    requires tx !in paid
    ensures Finalize(ExampleTables(status, LATE, paid), 1, ExamplePayment(tx), LATE)
      == ExampleTables(Paid, LATE, paid + {tx})
  {
    var before, after := ExampleTables(status, LATE, paid), ExampleTables(Paid, LATE, paid + {tx});
    assert (tx, 1) !in before.payments;
    assert after.payments == before.payments[(tx, 1) := PaymentOf(ExamplePayment(tx), ExampleTerms(), LATE)];
  }

  /** Session 1 is read for expiry, then claimed and finalized, and only then the expiry is written. */
  function Overwritten(i: nat): World {
    var op := ExamplePayment(100);
    if i == 0 then InitialWorld(0)
    else if i == 1 then World(ExampleTables(Pending, 0, {}), map[], 0, {}, multiset{}, multiset{}, multiset{})
    else if i == 2 then Overwritten(1).(clock := LATE, tasks := map[1 := Expiring(1)])
    else if i == 3 then
      World(ExampleTables(Processing, LATE, {}), map[1 := Expiring(1), 2 := Finalizing(1, op)], LATE,
            {op}, multiset{1}, multiset{}, multiset{})
    else if i == 4 then Overwritten(3).(db := ExampleTables(Paid, LATE, {100}),
      tasks := map[1 := Expiring(1), 2 := Announcing(1)])
    else Overwritten(4).(db := ExampleTables(Expired, LATE, {100}), tasks := map[2 := Announcing(1)])
  }

  function OverwritingSteps(): seq<Step> {
    [Create(1, ExampleTerms()),
     ReadForExpiry(1, 1),
     ClaimFor(1, ExamplePayment(100), 2),
     Continue(2, NotFound),
     Continue(1, NotFound)]
  }

  lemma OverwrittenOpens()
    ensures Next(Overwritten(0), Create(1, ExampleTerms()), Overwritten(1))
    ensures Next(Overwritten(1), ReadForExpiry(1, 1), Overwritten(2))
  {
    CreateExample();
    assert Overwritten(2).tasks == Overwritten(1).tasks[1 := Expiring(1)];
  }

  lemma OverwrittenClaims()
    ensures Next(Overwritten(2), ClaimFor(1, ExamplePayment(100), 2), Overwritten(3))
  {
    hide ExampleTables, ExamplePayment, Next;
    var w, w', op := Overwritten(2), Overwritten(3), ExamplePayment(100);
    assert w'.tasks == w.tasks[2 := Finalizing(1, op)];
    assert w'.seen == w.seen + {op};
    ExampleClaimed(w, 0, 100, 2, w');
  }

  lemma OverwrittenFinalizes()
    ensures Next(Overwritten(3), Continue(2, NotFound), Overwritten(4))
  {
    FinalizeExample(Processing, {}, 100);
    hide Finalize, ExampleTables;
    assert Overwritten(4).tasks == Overwritten(3).tasks[2 := Announcing(1)];
  }

  lemma OverwrittenExpires()
    ensures Next(Overwritten(4), Continue(1, NotFound), Overwritten(5))
  {
    assert Overwritten(5).db == SetStatus(Overwritten(4).db, 1, Expired, LATE);
    assert Overwritten(5).tasks == Overwritten(4).tasks - {1};
  }

  lemma OverwrittenRun(ws: seq<World>)
    requires |ws| == 6 && forall i :: 0 <= i < 6 ==> ws[i] == Overwritten(i)
    ensures IsRun(ws, OverwritingSteps())
  {
    assert ws[0] == InitialWorld(0);
    OverwrittenOpens();
    OverwrittenClaims();
    OverwrittenFinalizes();
    OverwrittenExpires();
    hide Overwritten, Next, InitialWorld, ExampleTerms;
  }

  /** A status read before the payment lets an expiry overwrite "paid": the checks and the unconditional update are
      separate statements. */
  lemma PaidMayBeOverwritten() returns (ws: seq<World>, steps: seq<Step>)
    ensures IsRun(ws, steps) && |ws| == 6
    ensures IsPaid(ws[4], 1)
    ensures 1 in ws[5].db.sessions && ws[5].db.sessions[1].status.Expired? && HasPayment(ws[5].db, 1)
  {
    assert (100, 1) in Overwritten(5).db.payments.Keys;
    assert Overwritten(5).db.sessions[1].status.Expired? && IsPaid(Overwritten(4), 1)
      && HasPayment(Overwritten(5).db, 1);
    hide *;
    ws := [Overwritten(0), Overwritten(1), Overwritten(2), Overwritten(3), Overwritten(4), Overwritten(5)];
    steps := OverwritingSteps();
    OverwrittenRun(ws);
  }

  predicate WritesOver(w: World, step: Step, sid: SessionId) {
    step.Continue? && step.t in w.tasks && w.tasks[step.t] in {Expiring(sid), Cancelling(sid)}
  }

  predicate IsPaid(w: World, sid: SessionId) {
    sid in w.db.sessions && w.db.sessions[sid].status.Paid?
  }

  /** Exactly these steps undo "paid": the write of an expiry or a cancellation of that session that was already under
      way. */
  lemma OnlyStaleWritesUndoPaid(w: World, step: Step, w': World, sid: SessionId)
    requires Next(w, step, w') && IsPaid(w, sid)
    ensures IsPaid(w', sid) <==> !WritesOver(w, step, sid)
  {
    hide DetectorAccepts, HasPayment;
  }

  /** No expiry or cancellation of the session is under way. */
  predicate NoneOverwriting(w: World, sid: SessionId) {
    forall t :: t in w.tasks ==> w.tasks[t] != Expiring(sid) && w.tasks[t] != Cancelling(sid)
  }

  ghost predicate Continues(w: World, ws: seq<World>, steps: seq<Step>) {
    |ws| == |steps| + 1 && ws[0] == w && forall i :: 0 <= i < |steps| ==> Next(ws[i], steps[i], ws[i + 1])
  }

  /** However the run goes on, the session is paid at its end. */
  ghost predicate StaysPaid(w: World, sid: SessionId) {
    forall ws, steps :: Continues(w, ws, steps) ==> IsPaid(ws[|steps|], sid)
  }

  /** A call that will overwrite a session was under way before, or read it pending, or found it without a payment. */
  lemma OverwritersStart(w: World, step: Step, w': World, sid: SessionId, t: nat)
    requires Next(w, step, w') && t in w'.tasks && (w'.tasks[t] == Expiring(sid) || w'.tasks[t] == Cancelling(sid))
    ensures (t in w.tasks && w.tasks[t] == w'.tasks[t]) || IsPending(w, sid)
      || (sid in w.db.sessions && !HasPayment(w.db, sid))
      || sid !in w.db.sessions || (t in w.tasks && w.tasks[t] == Inspecting(sid) && !HasPayment(w.db, sid))
  {
    hide DetectorAccepts, HasPayment, RecoveryAccepts, Finalize, SetStatus, Revert, Claim;
  }

  /** Paid with nothing to overwrite it: no new expiry or cancellation can start. */
  lemma SafelyPaidStays(w: World, step: Step, w': World, sid: SessionId)
    requires Inv(w) && Next(w, step, w') && IsPaid(w, sid) && NoneOverwriting(w, sid)
    ensures IsPaid(w', sid) && NoneOverwriting(w', sid)
  {
    assert HasPayment(w.db, sid) && !IsPending(w, sid);
    assert !WritesOver(w, step, sid) by {
      hide Inv, Next;
    }
    hide Inv, Next, HasPayment;
    OnlyStaleWritesUndoPaid(w, step, w', sid);
    forall t | t in w'.tasks ensures w'.tasks[t] != Expiring(sid) && w'.tasks[t] != Cancelling(sid) {
      if w'.tasks[t] == Expiring(sid) || w'.tasks[t] == Cancelling(sid) {
        OverwritersStart(w, step, w', sid, t);
      }
    }
  }

  lemma ContinuesShorter(w: World, ws: seq<World>, steps: seq<Step>)
    requires Continues(w, ws, steps) && steps != []
    ensures var n := |steps| - 1;
      |ws| == |steps| + 1 && Continues(w, ws[..n + 1], steps[..n]) && ws[..n + 1][n] == ws[n]
      && Next(ws[n], steps[n], ws[n + 1])
  {
    hide Next;
  }

  lemma ContinuesFrom(w: World, ws: seq<World>, steps: seq<Step>)
    requires Continues(w, ws, steps)
    ensures |ws| == |steps| + 1 && ws[0] == w
  {
    hide Next;
  }

  lemma {:induction false} SafelyPaidForGood(w: World, ws: seq<World>, steps: seq<Step>, sid: SessionId)
    requires Inv(w) && IsPaid(w, sid) && NoneOverwriting(w, sid) && Continues(w, ws, steps)
    ensures |ws| == |steps| + 1
    ensures Inv(ws[|steps|]) && IsPaid(ws[|steps|], sid) && NoneOverwriting(ws[|steps|], sid)
  {
    hide *;
    ContinuesFrom(w, ws, steps);
    if steps != [] {
      var n := |steps| - 1;
      ContinuesShorter(w, ws, steps);
      SafelyPaidForGood(w, ws[..n + 1], steps[..n], sid);
      NextKeepsInv(ws[n], steps[n], ws[n + 1]);
      SafelyPaidStays(ws[n], steps[n], ws[n + 1], sid);
    }
  }

  lemma UndoneNext(w: World, sid: SessionId, t: nat)
    requires IsPaid(w, sid) && t in w.tasks && (w.tasks[t] == Expiring(sid) || w.tasks[t] == Cancelling(sid))
    ensures !StaysPaid(w, sid)
  {
    var w' := Continued(w, t, NotFound);
    assert Next(w, Continue(t, NotFound), w') && !IsPaid(w', sid);
    assert Continues(w, [w, w'], [Continue(t, NotFound)]);
  }

  /** In every reachable state: a paid session stays paid however the run goes on if and only if no expiry or
      cancellation of it is under way. */
  lemma PaidStaysIff(ws: seq<World>, steps: seq<Step>, i: nat, sid: SessionId)
    requires IsRun(ws, steps) && i < |ws| && IsPaid(ws[i], sid)
    ensures StaysPaid(ws[i], sid) <==> NoneOverwriting(ws[i], sid)
  {
    RunKeepsInv(ws, steps);
    var w := ws[i];
    assert Inv(w);
    hide Inv, IsPaid, Continues, IsRun;
    if NoneOverwriting(w, sid) {
      forall vs, more | Continues(w, vs, more) ensures IsPaid(vs[|more|], sid) {
        SafelyPaidForGood(w, vs, more, sid);
      }
    } else {
      var t :| t in w.tasks && (w.tasks[t] == Expiring(sid) || w.tasks[t] == Cancelling(sid));
      UndoneNext(w, sid, t);
    }
  }

  /** Session 1 is claimed, found stuck while its finalizer is still waiting, reverted, claimed again, and then both
      finalizers commit. */
  function Slow(i: nat): World {
    var first, second := ExamplePayment(100), ExamplePayment(200);
    if i == 0 then InitialWorld(0)
    else if i == 1 then World(ExampleTables(Pending, 0, {}), map[], 0, {}, multiset{}, multiset{}, multiset{})
    else if i == 2 then World(ExampleTables(Processing, 0, {}), map[1 := Finalizing(1, first)], 0, {first}, multiset{1},
      multiset{}, multiset{})
    else if i == 3 then Slow(2).(clock := LATE,
      tasks := map[1 := Finalizing(1, first), 2 := Reconciling(1, ExampleTerms())])
    else if i == 4 then Slow(3).(tasks := map[1 := Finalizing(1, first), 2 := Reverting(1)])
    else if i == 5 then World(ExampleTables(Pending, LATE, {}), map[1 := Finalizing(1, first)], LATE, {first},
      multiset{1}, multiset{1}, multiset{})
    else if i == 6 then
      World(ExampleTables(Processing, LATE, {}), map[1 := Finalizing(1, first), 3 := Finalizing(1, second)], LATE,
            {first, second}, multiset{1, 1}, multiset{1}, multiset{})
    else if i == 7 then Slow(6).(db := ExampleTables(Paid, LATE, {100}),
      tasks := map[1 := Announcing(1), 3 := Finalizing(1, second)])
    else Slow(7).(db := ExampleTables(Paid, LATE, {100, 200}), tasks := map[1 := Announcing(1), 3 := Announcing(1)])
  }

  function SlowSteps(): seq<Step> {
    [Create(1, ExampleTerms()),
     ClaimFor(1, ExamplePayment(100), 1),
     SelectStuck(1, 2),
     Continue(2, NotFound),
     Continue(2, NotFound),
     ClaimFor(1, ExamplePayment(200), 3),
     Continue(1, NotFound),
     Continue(3, NotFound)]
  }

  lemma SlowOpens()
    ensures Next(Slow(0), Create(1, ExampleTerms()), Slow(1))
  {
    CreateExample();
    hide ExampleTables;
  }

  lemma SlowLooksStuck()
    ensures Next(Slow(2), SelectStuck(1, 2), Slow(3))
    ensures Next(Slow(3), Continue(2, NotFound), Slow(4))
  {
    assert Slow(3).tasks == Slow(2).tasks[2 := Reconciling(1, ExampleTerms())];
    assert Slow(4).tasks == Slow(3).tasks[2 := Reverting(1)];
  }

  lemma SlowClaim()
    ensures Next(Slow(1), ClaimFor(1, ExamplePayment(100), 1), Slow(2))
  {
    hide ExampleTables, ExamplePayment, Next;
    var w, w', op := Slow(1), Slow(2), ExamplePayment(100);
    assert w'.tasks == w.tasks[1 := Finalizing(1, op)];
    assert w'.seen == w.seen + {op};
    ExampleClaimed(w, 0, 100, 1, w');
  }

  lemma SlowRevert()
    ensures Next(Slow(4), Continue(2, NotFound), Slow(5))
  {
    assert Slow(5).db == Revert(Slow(4).db, 1, LATE);
    assert Slow(5).tasks == Slow(4).tasks - {2};
  }

  lemma SlowClaimAgain()
    ensures Next(Slow(5), ClaimFor(1, ExamplePayment(200), 3), Slow(6))
  {
    hide ExampleTables, ExamplePayment, Next;
    var w, w', op := Slow(5), Slow(6), ExamplePayment(200);
    assert w'.tasks == w.tasks[3 := Finalizing(1, op)];
    assert w'.seen == w.seen + {op};
    ExampleClaimed(w, LATE, 200, 3, w');
  }

  lemma SlowFinalizes()
    ensures Next(Slow(6), Continue(1, NotFound), Slow(7))
  {
    FinalizeExample(Processing, {}, 100);
    assert {} + {100} == {100};
    hide Finalize, ExampleTables;
    assert Slow(7).tasks == Slow(6).tasks[1 := Announcing(1)];
  }

  lemma SlowFinalizesAgain()
    ensures Next(Slow(7), Continue(3, NotFound), Slow(8))
  {
    FinalizeExample(Paid, {100}, 200);
    assert {100} + {200} == {100, 200};
    hide Finalize, ExampleTables;
    assert Slow(8).tasks == Slow(7).tasks[3 := Announcing(1)];
  }

  lemma SlowStarts()
    ensures Slow(0) == InitialWorld(0)
  {
    hide InitialWorld, ExampleTables;
  }

  lemma SlowRun(ws: seq<World>)
    requires |ws| == 9 && forall i :: 0 <= i < 9 ==> ws[i] == Slow(i)
    ensures IsRun(ws, SlowSteps())
  {
    hide Slow, Next, InitialWorld, ExampleTerms;
    SlowStarts();
    SlowOpens();
    SlowClaim();
    SlowLooksStuck();
    SlowRevert();
    SlowClaimAgain();
    SlowFinalizes();
    SlowFinalizesAgain();
  }

  /** A finalizer that outlives the recovery of its claim can leave two payment rows: the discipline is needed. */
  lemma SlowFinalizerPaysTwice() returns (ws: seq<World>, steps: seq<Step>)
    ensures IsRun(ws, steps) && |ws| == 9 && !IsDisciplinedRun(ws, steps)
    ensures (100, 1) in ws[8].db.payments && (200, 1) in ws[8].db.payments
  {
    assert (100, 1) in Slow(8).db.payments && (200, 1) in Slow(8).db.payments;
    hide *;
    ws, steps := [Slow(0), Slow(1), Slow(2), Slow(3), Slow(4), Slow(5), Slow(6), Slow(7), Slow(8)], SlowSteps();
    SlowRun(ws);
    if IsDisciplinedRun(ws, steps) {
      OnePaymentPerSession(ws, steps, 8, 100, 200, 1);
    }
  }

  /** A payment row is added exactly when a finalizer or a recovery commits a transaction not yet recorded for the
      session; once there is a payment, that is what a second one takes. */
  lemma OnlyCommitsAddPayments(w: World, step: Step, w': World, sid: SessionId)
    requires Next(w, step, w') && sid in w.db.sessions
    ensures (exists k :: k in w'.db.payments.Keys && k !in w.db.payments.Keys && k.1 == sid) <==>
      && step.Continue? && step.t in w.tasks
      && (w.tasks[step.t].Finalizing? || w.tasks[step.t].Confirming?) && w.tasks[step.t].sid == sid
      && (w.tasks[step.t].op.txHash, sid) !in w.db.payments.Keys
  {
    hide DetectorAccepts, HasPayment;
    if step.Continue? && (w.tasks[step.t].Finalizing? || w.tasks[step.t].Confirming?) && w.tasks[step.t].sid == sid {
      var key := (w.tasks[step.t].op.txHash, sid);
      assert key in w'.db.payments.Keys;
    }
  }

  // ---------------------------------------------------------------- when no payment row can be added

  function PaymentsOf(db: Tables, sid: SessionId): set<(TxHash, SessionId)> {
    set k | k in db.payments.Keys && k.1 == sid
  }

  /** A commit under way that would add a row. */
  predicate WouldPay(db: Tables, task: Task, sid: SessionId) {
    task.sid == sid && (task.Finalizing? || task.Confirming?) && (task.op.txHash, sid) !in db.payments.Keys
  }

  /** The session is neither open for a claim nor claimed, no recovery of it awaits Horizon, and what its finalizers and
      recoveries will commit is recorded already. */
  predicate Settled(w: World, sid: SessionId) {
    && sid in w.db.sessions && !w.db.sessions[sid].status.Pending? && !w.db.sessions[sid].status.Processing?
    && forall t :: t in w.tasks ==>
         !(w.tasks[t].Reconciling? && w.tasks[t].sid == sid) && !WouldPay(w.db, w.tasks[t], sid)
  }

  /** However the run goes on, the session has the payment rows it has now. */
  ghost predicate NoFurtherPayment(w: World, sid: SessionId) {
    forall ws: seq<World>, steps: seq<Step> ::
      Continues(w, ws, steps) ==> PaymentsOf(ws[|steps|].db, sid) == PaymentsOf(w.db, sid)
  }

  lemma SettledRows(w: World, step: Step, w': World, sid: SessionId)
    requires Next(w, step, w') && Settled(w, sid)
    ensures forall k :: k in w'.db.payments.Keys && k.1 == sid ==> k in w.db.payments.Keys
    ensures forall k :: k in w.db.payments.Keys ==> k in w'.db.payments.Keys
  {
    hide DetectorAccepts, RecoveryAccepts, HasPayment;
  }

  lemma ContinuedStatus(w: World, t: nat, lookup: Lookup, sid: SessionId)
    requires t in w.tasks && sid in w.db.sessions
    requires !w.db.sessions[sid].status.Pending? && !w.db.sessions[sid].status.Processing?
    ensures var db := Continued(w, t, lookup).db;
      sid in db.sessions && !db.sessions[sid].status.Pending? && !db.sessions[sid].status.Processing?
  {
    hide HasPayment;
  }

  lemma SettledStatus(w: World, step: Step, w': World, sid: SessionId)
    requires Next(w, step, w') && Settled(w, sid)
    ensures sid in w'.db.sessions && !w'.db.sessions[sid].status.Pending? && !w'.db.sessions[sid].status.Processing?
  {
    hide DetectorAccepts, RecoveryAccepts, HasPayment, WouldPay, Continued;
    if step.Continue? {
      ContinuedStatus(w.(clock := w'.clock), step.t, step.lookup, sid);
    }
  }

  /** Only a pending session is claimed, only a processing one is looked up. */
  lemma SettledTasks(w: World, step: Step, w': World, sid: SessionId, t: nat)
    requires Next(w, step, w') && Settled(w, sid) && t in w'.tasks
    ensures !(w'.tasks[t].Reconciling? && w'.tasks[t].sid == sid) && !WouldPay(w.db, w'.tasks[t], sid)
  {
    hide DetectorAccepts, RecoveryAccepts, HasPayment;
  }

  lemma SettledStays(w: World, step: Step, w': World, sid: SessionId)
    requires Next(w, step, w') && Settled(w, sid)
    ensures Settled(w', sid) && PaymentsOf(w'.db, sid) == PaymentsOf(w.db, sid)
  {
    hide Next;
    SettledRows(w, step, w', sid);
    SettledStatus(w, step, w', sid);
    forall t | t in w'.tasks
      ensures !(w'.tasks[t].Reconciling? && w'.tasks[t].sid == sid) && !WouldPay(w'.db, w'.tasks[t], sid)
    {
      SettledTasks(w, step, w', sid, t);
    }
  }

  lemma {:induction false} SettledForGood(w: World, ws: seq<World>, steps: seq<Step>, sid: SessionId)
    requires Settled(w, sid) && Continues(w, ws, steps)
    ensures |ws| == |steps| + 1
    ensures Settled(ws[|steps|], sid) && PaymentsOf(ws[|steps|].db, sid) == PaymentsOf(w.db, sid)
  {
    hide *;
    ContinuesFrom(w, ws, steps);
    if steps != [] {
      var n := |steps| - 1;
      ContinuesShorter(w, ws, steps);
      SettledForGood(w, ws[..n + 1], steps[..n], sid);
      SettledStays(ws[n], steps[n], ws[n + 1], sid);
    }
  }

  // Otherwise a row can be added.

  lemma {:induction false} FreshAbove(used: set<nat>) returns (n: nat)
    ensures forall x :: x in used ==> x < n
  {
    if used == {} {
      n := 0;
    } else {
      var x :| x in used;
      var above := FreshAbove(used - {x});
      n := if x < above then above else x + 1;
      forall y | y in used ensures y < n {
        assert y == x || y in used - {x};
      }
    }
  }

  /** What has been paid once can be paid again in another transaction. */
  lemma PayableAgain(w: World, sid: SessionId) returns (op: Operation)
    requires Inv(w) && HasPayment(w.db, sid)
    ensures sid in w.db.sessions && DetectorAccepts(op, w.db.sessions[sid].terms)
    ensures (op.txHash, sid) !in w.db.payments.Keys
  {
    hide AreAmountsEqual;
    var k :| k in w.db.payments.Keys && k.1 == sid;
    assert (k.0, sid) in w.db.payments;
    assert PaysFor(w.seen, k.0, w.db.payments[(k.0, sid)], w.db.sessions[sid].terms);
    var paid :| paid in w.seen && paid.txHash == k.0 && DetectorAccepts(paid, w.db.sessions[sid].terms);
    var used := set l | l in w.db.payments.Keys :: l.0;
    assert forall l :: l in w.db.payments.Keys ==> l.0 in used;
    var unused := FreshAbove(used);
    op := paid.(txHash := unused);
    assert (op.txHash, sid).0 !in used;
  }

  lemma CommitPays(w: World, sid: SessionId, t: nat)
    requires t in w.tasks && WouldPay(w.db, w.tasks[t], sid) && sid in w.db.sessions
    ensures !NoFurtherPayment(w, sid)
  {
    var w' := Continued(w, t, NotFound);
    var key := (w.tasks[t].op.txHash, sid);
    assert Next(w, Continue(t, NotFound), w');
    assert Continues(w, [w, w'], [Continue(t, NotFound)]);
    assert key in PaymentsOf(w'.db, sid) && key !in PaymentsOf(w.db, sid);
  }

  lemma ContinuesLonger(w: World, step: Step, w1: World, ws: seq<World>, steps: seq<Step>)
    requires Next(w, step, w1) && Continues(w1, ws, steps)
    ensures Continues(w, [w] + ws, [step] + steps)
    ensures ([w] + ws)[|[step] + steps|] == ws[|steps|]
  {
    hide Next;
    forall i | 0 <= i < |steps| + 1 ensures Next(([w] + ws)[i], ([step] + steps)[i], ([w] + ws)[i + 1]) {
      if i > 0 {
        assert Next(ws[i - 1], steps[i - 1], ws[i]);
      }
    }
  }

  lemma SomeFurtherPayment(w: World, sid: SessionId) returns (ws: seq<World>, steps: seq<Step>)
    requires !NoFurtherPayment(w, sid)
    ensures |ws| == |steps| + 1 && Continues(w, ws, steps)
    ensures PaymentsOf(ws[|steps|].db, sid) != PaymentsOf(w.db, sid)
  {
    hide Next, PaymentsOf;
    ws, steps :| Continues(w, ws, steps) && PaymentsOf(ws[|steps|].db, sid) != PaymentsOf(w.db, sid);
  }

  lemma IsFurtherPayment(w: World, ws: seq<World>, steps: seq<Step>, sid: SessionId)
    requires |ws| == |steps| + 1 && Continues(w, ws, steps)
    requires PaymentsOf(ws[|steps|].db, sid) != PaymentsOf(w.db, sid)
    ensures !NoFurtherPayment(w, sid)
  {
    hide Continues, PaymentsOf;
  }

  /** A row that can be added after one step that adds none can be added now. */
  lemma StillPayable(w: World, step: Step, w1: World, sid: SessionId)
    requires Next(w, step, w1) && !NoFurtherPayment(w1, sid) && PaymentsOf(w1.db, sid) == PaymentsOf(w.db, sid)
    ensures !NoFurtherPayment(w, sid)
  {
    hide *;
    var ws, steps := SomeFurtherPayment(w1, sid);
    ContinuesLonger(w, step, w1, ws, steps);
    IsFurtherPayment(w, [w] + ws, [step] + steps, sid);
  }

  lemma ReconcilingPays(w: World, sid: SessionId, t: nat, op: Operation)
    requires t in w.tasks && sid in w.db.sessions && w.tasks[t] == Reconciling(sid, w.db.sessions[sid].terms)
    requires DetectorAccepts(op, w.db.sessions[sid].terms) && (op.txHash, sid) !in w.db.payments.Keys
    ensures !NoFurtherPayment(w, sid)
  {
    SameAcceptance(op, w.db.sessions[sid].terms);
    hide DetectorAccepts, RecoveryAccepts;
    var w1 := Continued(w, t, Confirmed(op));
    assert Next(w, Continue(t, Confirmed(op)), w1);
    CommitPays(w1, sid, t);
    StillPayable(w, Continue(t, Confirmed(op)), w1, sid);
  }

  lemma PendingPays(w: World, sid: SessionId, op: Operation)
    requires sid in w.db.sessions && w.db.sessions[sid].status.Pending?
    requires DetectorAccepts(op, w.db.sessions[sid].terms) && (op.txHash, sid) !in w.db.payments.Keys
    ensures !NoFurtherPayment(w, sid)
  {
    hide DetectorAccepts;
    var t := FreshAbove(w.tasks.Keys);
    var w1 := Start(w, t, Finalizing(sid, op)).(db := Claim(w.db, sid, w.clock), seen := w.seen + {op},
      claims := w.claims + multiset{sid});
    assert Next(w, ClaimFor(sid, op, t), w1);
    assert w1.tasks[t] == Finalizing(sid, op) && sid in w1.db.sessions && w1.db.payments == w.db.payments;
    CommitPays(w1, sid, t);
    StillPayable(w, ClaimFor(sid, op, t), w1, sid);
  }

  lemma ProcessingPays(w: World, sid: SessionId, op: Operation)
    requires sid in w.db.sessions && w.db.sessions[sid].status.Processing?
    requires DetectorAccepts(op, w.db.sessions[sid].terms) && (op.txHash, sid) !in w.db.payments.Keys
    ensures !NoFurtherPayment(w, sid)
  {
    hide DetectorAccepts;
    var t := FreshAbove(w.tasks.Keys);
    var late := if w.clock > w.db.sessions[sid].statusChangedAt + STALE_MS then w.clock
                else w.db.sessions[sid].statusChangedAt + STALE_MS + 1;
    var w1 := Start(w.(clock := late), t, Reconciling(sid, w.db.sessions[sid].terms));
    assert Next(w, SelectStuck(sid, t), w1);
    assert w1.tasks[t] == Reconciling(sid, w1.db.sessions[sid].terms);
    ReconcilingPays(w1, sid, t, op);
    StillPayable(w, SelectStuck(sid, t), w1, sid);
  }

  lemma UnsettledPays(w: World, sid: SessionId)
    requires Inv(w) && HasPayment(w.db, sid) && !Settled(w, sid)
    ensures !NoFurtherPayment(w, sid)
  {
    var op := PayableAgain(w, sid);
    hide NoFurtherPayment, DetectorAccepts, HasPayment, PaymentsGenuine, PaidHavePayments, TimesOrdered, ClaimsBalanced;
    if w.db.sessions[sid].status.Pending? {
      PendingPays(w, sid, op);
    } else if w.db.sessions[sid].status.Processing? {
      ProcessingPays(w, sid, op);
    } else {
      var t :| t in w.tasks
        && ((w.tasks[t].Reconciling? && w.tasks[t].sid == sid) || WouldPay(w.db, w.tasks[t], sid));
      assert TaskGrounded(w.db, w.seen, w.tasks[t]);
      if w.tasks[t].Reconciling? {
        ReconcilingPays(w, sid, t, op);
      } else {
        CommitPays(w, sid, t);
      }
    }
  }

  /** In every reachable state: a session that has a payment gets no further payment row, however the run goes on, if
      and only if it is settled. */
  lemma NoFurtherPaymentIff(ws: seq<World>, steps: seq<Step>, i: nat, sid: SessionId)
    requires IsRun(ws, steps) && i < |ws| && HasPayment(ws[i].db, sid)
    ensures NoFurtherPayment(ws[i], sid) <==> Settled(ws[i], sid)
  {
    RunKeepsInv(ws, steps);
    var w := ws[i];
    assert Inv(w);
    hide *;
    if Settled(w, sid) {
      SettledLasts(w, sid);
    } else {
      UnsettledPays(w, sid);
    }
  }

  lemma SettledLasts(w: World, sid: SessionId)
    requires Settled(w, sid)
    ensures NoFurtherPayment(w, sid)
  {
    hide Settled, Continues, PaymentsOf;
    forall ws: seq<World>, steps: seq<Step> | Continues(w, ws, steps)
      ensures |ws| == |steps| + 1 && PaymentsOf(ws[|steps|].db, sid) == PaymentsOf(w.db, sid)
    {
      SettledForGood(w, ws, steps, sid);
    }
  }
}
