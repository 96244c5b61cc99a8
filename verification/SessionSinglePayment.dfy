/** At most one payment row and one detector confirmation per session, when recovery is disciplined. */
module SessionSinglePayment {
  import opened Options
  import opened CheckoutTables
  import opened SessionProtocol

  predicate Writes(task: Task) {
    task.Finalizing? || task.Reconciling? || task.Confirming? || task.Reverting?
  }

  /** A stuck session is taken up only when no earlier claim or recovery of it is still under way. */
  ghost predicate Disciplined(w: World, step: Step) {
    step.SelectStuck? ==> forall t :: t in w.tasks && Writes(w.tasks[t]) ==> w.tasks[t].sid != step.sid
  }

  ghost predicate OneWriter(db: Tables, tasks: map<nat, Task>) {
    && (forall s, t :: s in tasks && t in tasks && s != t && Writes(tasks[s]) && Writes(tasks[t]) ==>
         tasks[s].sid != tasks[t].sid)
    && (forall t :: t in tasks && Writes(tasks[t]) ==>
          && (tasks[t].sid in db.sessions ==> !db.sessions[tasks[t].sid].status.Pending?)
          && !HasPayment(db, tasks[t].sid))
  }

  ghost predicate OnePayment(db: Tables) {
    && (forall k, l :: k in db.payments.Keys && l in db.payments.Keys && k.1 == l.1 ==> k == l)
    && (forall sid :: sid in db.sessions && HasPayment(db, sid) ==>
          !db.sessions[sid].status.Pending? && !db.sessions[sid].status.Processing?)
  }

  ghost predicate OneAnnouncement(db: Tables, tasks: map<nat, Task>, announced: multiset<SessionId>) {
    && (forall s, t :: s in tasks && t in tasks && s != t && tasks[s].Announcing? && tasks[t].Announcing? ==>
         tasks[s].sid != tasks[t].sid)
    && (forall t :: t in tasks && tasks[t].Announcing? ==> HasPayment(db, tasks[t].sid) && announced[tasks[t].sid] == 0)
    && (forall sid :: announced[sid] <= 1 && (announced[sid] > 0 ==> HasPayment(db, sid)))
  }

  ghost predicate Single(w: World) {
    Inv(w) && OneWriter(w.db, w.tasks) && OnePayment(w.db) && OneAnnouncement(w.db, w.tasks, w.announced)
  }

  // ---------------------------------------------------------------- each step keeps it

  lemma PayingChanges(db: Tables, sid: SessionId, op: Operation, now: int, x: SessionId)
    requires sid in db.sessions
    ensures HasPayment(Finalize(db, sid, op, now), x) <==> HasPayment(db, x) || x == sid
  {
    var db' := Finalize(db, sid, op, now);
    assert db'.payments.Keys == db.payments.Keys + {(op.txHash, sid)};
    if HasPayment(db, x) {
      var k :| k in db.payments.Keys && k.1 == x;
      assert k in db'.payments.Keys;
    }
    assert (op.txHash, sid) in db'.payments.Keys;
  }

  lemma PayKeepsOnePayment(db: Tables, sid: SessionId, op: Operation, now: int)
    requires OnePayment(db) && sid in db.sessions && !HasPayment(db, sid)
    ensures OnePayment(Finalize(db, sid, op, now))
  {
    var db' := Finalize(db, sid, op, now);
    assert db'.payments.Keys == db.payments.Keys + {(op.txHash, sid)};
    forall x | x in db'.sessions && HasPayment(db', x)
      ensures !db'.sessions[x].status.Pending? && !db'.sessions[x].status.Processing?
    {
      PayingChanges(db, sid, op, now, x);
    }
  }

  lemma PayKeepsOneWriter(db: Tables, tasks: map<nat, Task>, t: nat, sid: SessionId, op: Operation, now: int)
    requires OneWriter(db, tasks) && t in tasks && Writes(tasks[t]) && tasks[t].sid == sid && sid in db.sessions
    ensures OneWriter(Finalize(db, sid, op, now), tasks - {t})
    ensures OneWriter(Finalize(db, sid, op, now), tasks[t := Announcing(sid)])
  {
    forall x ensures HasPayment(Finalize(db, sid, op, now), x) <==> HasPayment(db, x) || x == sid {
      PayingChanges(db, sid, op, now, x);
    }
  }

  lemma PayKeepsOneAnnouncement(db: Tables, tasks: map<nat, Task>, announced: multiset<SessionId>, t: nat,
        sid: SessionId, op: Operation, now: int)
    requires OneAnnouncement(db, tasks, announced) && t in tasks && sid in db.sessions && !HasPayment(db, sid)
    ensures OneAnnouncement(Finalize(db, sid, op, now), tasks - {t}, announced)
    ensures OneAnnouncement(Finalize(db, sid, op, now), tasks[t := Announcing(sid)], announced)
  {
    forall x ensures HasPayment(Finalize(db, sid, op, now), x) <==> HasPayment(db, x) || x == sid {
      PayingChanges(db, sid, op, now, x);
    }
  }

  lemma PayKeepsSingle(w: World, t: nat, sid: SessionId, op: Operation)
    requires Single(w) && t in w.tasks && Writes(w.tasks[t]) && w.tasks[t].sid == sid && sid in w.db.sessions
    ensures var db' := Finalize(w.db, sid, op, w.clock);
      && OnePayment(db')
      && OneWriter(db', w.tasks - {t}) && OneWriter(db', w.tasks[t := Announcing(sid)])
      && OneAnnouncement(db', w.tasks - {t}, w.announced)
           && OneAnnouncement(db', w.tasks[t := Announcing(sid)], w.announced)
  {
    assert !HasPayment(w.db, sid);
    hide Inv, Finalize, OnePayment, OneWriter, OneAnnouncement, HasPayment;
    PayKeepsOnePayment(w.db, sid, op, w.clock);
    PayKeepsOneWriter(w.db, w.tasks, t, sid, op, w.clock);
    PayKeepsOneAnnouncement(w.db, w.tasks, w.announced, t, sid, op, w.clock);
  }

  /** Everything but the status of one session stays: a status other than pending, or pending given back by the only
      writer. */
  lemma StatusKeepsSingle(w: World, t: nat, sid: SessionId, status: Status)
    requires OneWriter(w.db, w.tasks) && OnePayment(w.db) && OneAnnouncement(w.db, w.tasks, w.announced) && t in w.tasks
    requires !status.Processing?
    requires status.Pending? ==> Writes(w.tasks[t]) && w.tasks[t].sid == sid
    ensures var db' := SetStatus(w.db, sid, status, w.clock);
      OneWriter(db', w.tasks - {t}) && OnePayment(db') && OneAnnouncement(db', w.tasks - {t}, w.announced)
  {
    var db' := SetStatus(w.db, sid, status, w.clock);
    assert db'.payments == w.db.payments;
    assert forall x :: HasPayment(db', x) == HasPayment(w.db, x);
  }

  lemma FewerTasksKeepSingle(w: World, t: nat)
    requires OneWriter(w.db, w.tasks) && OneAnnouncement(w.db, w.tasks, w.announced)
    ensures OneWriter(w.db, w.tasks - {t}) && OneAnnouncement(w.db, w.tasks - {t}, w.announced)
  {
  }

  lemma ReadKeepsSingle(w: World, t: nat, task: Task)
    requires OneWriter(w.db, w.tasks) && OneAnnouncement(w.db, w.tasks, w.announced) && !task.Announcing?
    requires Writes(task) ==>
      && (forall s :: s in w.tasks && s != t && Writes(w.tasks[s]) ==> w.tasks[s].sid != task.sid)
      && (task.sid in w.db.sessions ==> !w.db.sessions[task.sid].status.Pending?)
      && !HasPayment(w.db, task.sid)
    ensures OneWriter(w.db, w.tasks[t := task]) && OneAnnouncement(w.db, w.tasks[t := task], w.announced)
  {
  }

  lemma AnnounceKeepsSingle(w: World, t: nat, sid: SessionId)
    requires OneWriter(w.db, w.tasks) && OneAnnouncement(w.db, w.tasks, w.announced) && t in w.tasks
      && w.tasks[t] == Announcing(sid)
    ensures OneWriter(w.db, w.tasks - {t}) && OneAnnouncement(w.db, w.tasks - {t}, w.announced + multiset{sid})
  {
  }

  lemma ClaimKeepsOneWriter(db: Tables, tasks: map<nat, Task>, sid: SessionId, op: Operation, t: nat, now: int)
    requires OneWriter(db, tasks) && sid in db.sessions && db.sessions[sid].status.Pending? && !HasPayment(db, sid)
      && t !in tasks
    ensures OneWriter(Claim(db, sid, now), tasks[t := Finalizing(sid, op)])
  {
    SamePayments(db, Claim(db, sid, now));
    hide HasPayment;
  }

  lemma ClaimKeepsParts(db: Tables, tasks: map<nat, Task>, announced: multiset<SessionId>, sid: SessionId,
        op: Operation, t: nat, now: int)
    requires OneWriter(db, tasks) && OnePayment(db) && OneAnnouncement(db, tasks, announced)
    requires sid in db.sessions && db.sessions[sid].status.Pending? && t !in tasks
    ensures var db', tasks' := Claim(db, sid, now), tasks[t := Finalizing(sid, op)];
      OneWriter(db', tasks') && OnePayment(db') && OneAnnouncement(db', tasks', announced)
  {
    ClaimKeepsOneWriter(db, tasks, sid, op, t, now);
    SamePayments(db, Claim(db, sid, now));
    hide HasPayment, OneWriter;
  }

  lemma SamePayments(db: Tables, db': Tables)
    requires db'.payments == db.payments
    ensures forall x :: HasPayment(db', x) == HasPayment(db, x)
  {
  }

  lemma ClaimKeepsSingle(w: World, sid: SessionId, op: Operation, t: nat, w': World)
    requires Single(w) && Acts(w, ClaimFor(sid, op, t), w')
    ensures OneWriter(w'.db, w'.tasks) && OnePayment(w'.db) && OneAnnouncement(w'.db, w'.tasks, w'.announced)
  {
    hide Inv, DetectorAccepts, OneWriter, OnePayment, OneAnnouncement, Claim;
    ClaimKeepsParts(w.db, w.tasks, w.announced, sid, op, t, w.clock);
  }

  lemma UnknownSession(w: World, sid: SessionId)
    requires Inv(w) && sid !in w.db.sessions
    ensures !HasPayment(w.db, sid) && forall t :: t in w.tasks ==> w.tasks[t].sid != sid
  {
    forall k | k in w.db.payments.Keys ensures k.1 != sid {
      assert (k.0, k.1) in w.db.payments;
    }
    assert forall t :: t in w.tasks ==> TaskGrounded(w.db, w.seen, w.tasks[t]);
  }

  lemma CreateKeepsParts(db: Tables, tasks: map<nat, Task>, announced: multiset<SessionId>, sid: SessionId,
        session: Session, db': Tables)
    requires OneWriter(db, tasks) && OnePayment(db) && OneAnnouncement(db, tasks, announced)
    requires !HasPayment(db, sid) && forall t :: t in tasks ==> tasks[t].sid != sid
    requires db' == db.(sessions := db.sessions[sid := session])
    ensures OneWriter(db', tasks) && OnePayment(db') && OneAnnouncement(db', tasks, announced)
  {
    SamePayments(db, db');
    CreateKeepsOneWriter(db, tasks, sid, session, db');
    hide HasPayment, OneWriter;
  }

  lemma CreateKeepsOneWriter(db: Tables, tasks: map<nat, Task>, sid: SessionId, session: Session, db': Tables)
    requires OneWriter(db, tasks) && db' == db.(sessions := db.sessions[sid := session])
    requires forall t :: t in tasks ==> tasks[t].sid != sid
    ensures OneWriter(db', tasks)
  {
    SamePayments(db, db');
    hide HasPayment;
  }

  lemma CreateKeepsSingle(w: World, sid: SessionId, terms: Terms, w': World)
    requires Single(w) && Acts(w, Create(sid, terms), w')
    ensures OneWriter(w'.db, w'.tasks) && OnePayment(w'.db) && OneAnnouncement(w'.db, w'.tasks, w'.announced)
  {
    hide Inv, OneWriter, OnePayment, OneAnnouncement, HasPayment;
    UnknownSession(w, sid);
    CreateKeepsParts(w.db, w.tasks, w.announced, sid, NewSession(terms, w.clock), w'.db);
  }

  lemma SelectKeepsSingle(w: World, sid: SessionId, t: nat, w': World)
    requires Single(w) && Acts(w, SelectStuck(sid, t), w') && Disciplined(w, SelectStuck(sid, t))
    ensures OneWriter(w'.db, w'.tasks) && OneAnnouncement(w'.db, w'.tasks, w'.announced)
  {
    ReadKeepsSingle(w, t, Reconciling(sid, w.db.sessions[sid].terms));
  }

  /** What the invariants say about the task to continue. */
  lemma WriterFacts(w: World, t: nat)
    requires Single(w) && t in w.tasks
    ensures w.tasks[t].sid in w.db.sessions
    ensures Writes(w.tasks[t]) ==>
      && !HasPayment(w.db, w.tasks[t].sid) && !w.db.sessions[w.tasks[t].sid].status.Pending?
      && forall s :: s in w.tasks && s != t && Writes(w.tasks[s]) ==> w.tasks[s].sid != w.tasks[t].sid
  {
    assert TaskGrounded(w.db, w.seen, w.tasks[t]);
  }

  lemma ContinueWriter(w: World, t: nat, lookup: Lookup)
    requires Single(w) && t in w.tasks && Writes(w.tasks[t])
    ensures var w' := Continued(w, t, lookup);
      OneWriter(w'.db, w'.tasks) && OnePayment(w'.db) && OneAnnouncement(w'.db, w'.tasks, w'.announced)
  {
    WriterFacts(w, t);
    hide Inv, OneWriter, OnePayment, OneAnnouncement, Finalize, SetStatus, HasPayment;
    match w.tasks[t]
    case Finalizing(sid, op) => PayKeepsSingle(w, t, sid, op);
    case Reconciling(sid, terms) =>
      ReadKeepsSingle(w, t, if lookup.Confirmed? then Confirming(sid, lookup.op) else Reverting(sid));
    case Confirming(sid, op) => PayKeepsSingle(w, t, sid, op);
    case Reverting(sid) =>
      StatusKeepsSingle(w, t, sid, Pending);
      FewerTasksKeepSingle(w, t);
  }

  lemma ContinueOther(w: World, t: nat, lookup: Lookup)
    requires Single(w) && t in w.tasks && !Writes(w.tasks[t])
    ensures var w' := Continued(w, t, lookup);
      OneWriter(w'.db, w'.tasks) && OnePayment(w'.db) && OneAnnouncement(w'.db, w'.tasks, w'.announced)
  {
    hide Inv, OneWriter, OnePayment, OneAnnouncement, Finalize, SetStatus, HasPayment;
    match w.tasks[t]
    case Announcing(sid) => AnnounceKeepsSingle(w, t, sid);
    case Expiring(sid) => StatusKeepsSingle(w, t, sid, Expired);
    case Cancelling(sid) => StatusKeepsSingle(w, t, sid, Cancelled);
    case Repairing(sid) => StatusKeepsSingle(w, t, sid, Paid);
    case Inspecting(sid) => ReadKeepsSingle(w, t, if HasPayment(w.db, sid) then MarkingPaid(sid) else Expiring(sid));
    case MarkingPaid(sid) => StatusKeepsSingle(w, t, sid, Paid);
  }

  lemma ReadAct(w: World, step: Step, w': World)
    requires Single(w) && Acts(w, step, w')
    requires step.ReadForExpiry? || step.ReadForCancel? || step.SelectPaidPending? || step.SelectStalePending?
    ensures OneWriter(w'.db, w'.tasks) && OnePayment(w'.db) && OneAnnouncement(w'.db, w'.tasks, w'.announced)
  {
    hide Inv, HasPayment, OneWriter, OnePayment, OneAnnouncement;
    assert w' == Start(w, step.t, w'.tasks[step.t]) && !Writes(w'.tasks[step.t]) && !w'.tasks[step.t].Announcing?;
    ReadKeepsSingle(w, step.t, w'.tasks[step.t]);
  }

  lemma ActKeepsSingle(w: World, step: Step, w': World)
    requires Single(w) && Acts(w, step, w') && Disciplined(w, step)
    ensures Single(w')
  {
    ActKeepsInv(w, step, w');
    match step
    case Create(sid, terms) => CreateKeepsSingle(w, sid, terms, w');
    case ClaimFor(sid, op, t) => ClaimKeepsSingle(w, sid, op, t, w');
    case SelectStuck(sid, t) =>
      hide *;
      SelectKeepsSingle(w, sid, t, w');
    case Continue(t, lookup) =>
      hide Inv, Continued, DetectorAccepts, HasPayment, OneWriter, OnePayment, OneAnnouncement;
      if Writes(w.tasks[t]) {
        ContinueWriter(w, t, lookup);
      } else {
        ContinueOther(w, t, lookup);
      }
    case Die(t) =>
      hide Inv, DetectorAccepts, HasPayment, OneWriter, OnePayment, OneAnnouncement;
      FewerTasksKeepSingle(w, t);
    case _ => ReadAct(w, step, w');
  }

  ghost predicate IsDisciplinedRun(ws: seq<World>, steps: seq<Step>) {
    IsRun(ws, steps) && forall i :: 0 <= i < |steps| ==> Disciplined(ws[i], steps[i])
  }

  lemma NextKeepsSingle(w: World, step: Step, w': World)
    requires Single(w) && Next(w, step, w') && Disciplined(w, step)
    ensures Single(w')
  {
    hide Single, Acts;
    ClockKeepsSingle(w, w'.clock);
    ActKeepsSingle(w.(clock := w'.clock), step, w');
  }

  lemma {:induction false} RunKeepsSingle(ws: seq<World>, steps: seq<Step>)
    requires IsDisciplinedRun(ws, steps)
    ensures forall i :: 0 <= i < |ws| ==> Single(ws[i])
  {
    if steps == [] {
      var clock :| ws[0] == InitialWorld(clock);
    } else {
      hide Single, Next, Disciplined, InitialWorld;
      var n := |steps| - 1;
      RunKeepsSingle(ws[..n + 1], steps[..n]);
      assert Single(ws[..n + 1][n]);
      NextKeepsSingle(ws[n], steps[n], ws[n + 1]);
      assert forall i :: 0 <= i <= n ==> ws[i] == ws[..n + 1][i];
    }
  }

  lemma ClockKeepsSingle(w: World, clock: int)
    requires Single(w) && clock >= w.clock
    ensures Single(w.(clock := clock))
  {
    ClockKeepsInv(w, clock);
  }

  // ---------------------------------------------------------------- main results

  /** However often and by however many pollers operations are replayed, a session gets at most one payment row and one
      confirmation from the detector, provided no stuck session is taken up while an earlier claim or recovery of it is
      still under way. Without recovery that always holds. */
  lemma OnePaymentPerSession(ws: seq<World>, steps: seq<Step>, i: nat, tx: TxHash, tx': TxHash, sid: SessionId)
    requires IsDisciplinedRun(ws, steps) && i < |ws|
    ensures (tx, sid) in ws[i].db.payments && (tx', sid) in ws[i].db.payments ==> tx == tx'
    ensures ws[i].announced[sid] <= 1
    ensures ws[i].announced[sid] == 1 ==> HasPayment(ws[i].db, sid)
  {
    RunKeepsSingle(ws, steps);
    assert Single(ws[i]);
    if (tx, sid) in ws[i].db.payments && (tx', sid) in ws[i].db.payments {
      assert (tx, sid) in ws[i].db.payments.Keys && (tx', sid) in ws[i].db.payments.Keys;
      assert (tx, sid) == (tx', sid);
    }
  }
}
