/** Checkout sessions under any number of pollers, expiries, cancellations and recovery passes, every read and write a
    step of its own, and any of them dying at any point. */
module SessionProtocol {
  import opened Options
  import opened AmountUtils
  import opened CheckoutTables

  /** A write that is still to come from something already read. */
  datatype Task =
    | Finalizing(sid: SessionId, op: Operation)
    | Announcing(sid: SessionId)
    | Expiring(sid: SessionId)
    | Cancelling(sid: SessionId)
    | Reconciling(sid: SessionId, terms: Terms)
    | Confirming(sid: SessionId, op: Operation)
    | Reverting(sid: SessionId)
    | Repairing(sid: SessionId)
    | Inspecting(sid: SessionId)
    | MarkingPaid(sid: SessionId)

  /** Tables and calls under way, and the history: operations Horizon reported, claims, reverts and the detector's
      confirmations per session. */
  datatype World = World(
    db: Tables, tasks: map<nat, Task>, clock: int,
    seen: set<Operation>, claims: multiset<SessionId>, reverts: multiset<SessionId>, announced: multiset<SessionId>)

  /** What Horizon answers when a stuck session is looked up: a first match, and whether its transaction succeeded. */
  datatype Lookup = NotFound | Unsuccessful(op: Operation) | Confirmed(op: Operation)

  datatype Step =
    | Create(sid: SessionId, terms: Terms)
    | ReadForExpiry(sid: SessionId, t: nat)
    | ReadForCancel(sid: SessionId, merchantId: MerchantId, t: nat)
    | ClaimFor(sid: SessionId, op: Operation, t: nat)
    | SelectStuck(sid: SessionId, t: nat)
    | SelectPaidPending(sid: SessionId, t: nat)
    | SelectStalePending(sid: SessionId, t: nat)
    | Continue(t: nat, lookup: Lookup)
    | Die(t: nat)

  function InitialWorld(clock: int): World {
    World(Tables(map[], map[]), map[], clock, {}, multiset{}, multiset{}, multiset{})
  }

  function Start(w: World, t: nat, task: Task): World {
    w.(tasks := w.tasks[t := task])
  }

  function End(w: World, t: nat, db: Tables): World {
    w.(db := db, tasks := w.tasks - {t})
  }

  predicate Answers(lookup: Lookup, terms: Terms) {
    lookup.NotFound? || RecoveryAccepts(lookup.op, terms)
  }

  /** The next statement of a call under way. */
  function Continued(w: World, t: nat, lookup: Lookup): World
    requires t in w.tasks
  {
    match w.tasks[t]
    case Finalizing(sid, op) => w.(db := Finalize(w.db, sid, op, w.clock), tasks := w.tasks[t := Announcing(sid)])
    case Announcing(sid) => End(w, t, w.db).(announced := w.announced + multiset{sid})
    case Expiring(sid) => End(w, t, SetStatus(w.db, sid, Expired, w.clock))
    case Cancelling(sid) => End(w, t, SetStatus(w.db, sid, Cancelled, w.clock))
    case Reconciling(sid, terms) =>
      if lookup.Confirmed? then Start(w, t, Confirming(sid, lookup.op)).(seen := w.seen + {lookup.op})
        else Start(w, t, Reverting(sid))
    case Confirming(sid, op) => End(w, t, Finalize(w.db, sid, op, w.clock))
    case Reverting(sid) =>
      End(w, t, Revert(w.db, sid, w.clock)).(reverts := if IsProcessing(w.db, sid) then w.reverts + multiset{sid}
        else w.reverts)
    case Repairing(sid) => End(w, t, SetStatus(w.db, sid, Paid, w.clock))
    case Inspecting(sid) => Start(w, t, if HasPayment(w.db, sid) then MarkingPaid(sid) else Expiring(sid))
    case MarkingPaid(sid) => End(w, t, SetStatus(w.db, sid, Paid, w.clock))
  }

  predicate IsPending(w: World, sid: SessionId) {
    sid in w.db.sessions && w.db.sessions[sid].status.Pending?
  }

  /** One step at the present clock. */
  ghost predicate Acts(w: World, step: Step, w': World) {
    match step
    case Create(sid, terms) =>
      sid !in w.db.sessions && w' == w.(db := w.db.(sessions := w.db.sessions[sid := NewSession(terms, w.clock)]))
    case ReadForExpiry(sid, t) =>
      t !in w.tasks && IsPending(w, sid) && w.clock > w.db.sessions[sid].terms.expiresAt
        && w' == Start(w, t, Expiring(sid))
    case ReadForCancel(sid, merchantId, t) =>
      t !in w.tasks && IsPending(w, sid) && w.db.sessions[sid].terms.merchantId == merchantId
        && w' == Start(w, t, Cancelling(sid))
    case ClaimFor(sid, op, t) =>
      && t !in w.tasks && MayClaim(w.db, op, sid)
      && w' == Start(w, t, Finalizing(sid, op)).(db := Claim(w.db, sid, w.clock), seen := w.seen + {op},
           claims := w.claims + multiset{sid})
    case SelectStuck(sid, t) =>
      && t !in w.tasks && IsProcessing(w.db, sid) && w.db.sessions[sid].statusChangedAt < w.clock - STALE_MS
      && w' == Start(w, t, Reconciling(sid, w.db.sessions[sid].terms))
    case SelectPaidPending(sid, t) =>
      t !in w.tasks && IsPending(w, sid) && HasPayment(w.db, sid) && w' == Start(w, t, Repairing(sid))
    case SelectStalePending(sid, t) =>
      t !in w.tasks && IsPending(w, sid) && w.db.sessions[sid].terms.createdAt < w.clock - STALE_MS
        && w' == Start(w, t, Inspecting(sid))
    case Continue(t, lookup) =>
      t in w.tasks && (w.tasks[t].Reconciling? ==> Answers(lookup, w.tasks[t].terms)) && w' == Continued(w, t, lookup)
    case Die(t) => t in w.tasks && w' == w.(tasks := w.tasks - {t})
  }

  /** The clock never goes back; it may move before any step. */
  ghost predicate Next(w: World, step: Step, w': World) {
    w'.clock >= w.clock && Acts(w.(clock := w'.clock), step, w')
  }

  ghost predicate IsRun(ws: seq<World>, steps: seq<Step>) {
    && |ws| == |steps| + 1
    && (exists clock :: ws[0] == InitialWorld(clock))
    && forall i :: 0 <= i < |steps| ==> Next(ws[i], steps[i], ws[i + 1])
  }

  // ---------------------------------------------------------------- the invariant, part by part

  /** The row records an operation Horizon reported that pays for this session. */
  ghost predicate PaysFor(seen: set<Operation>, tx: TxHash, payment: Payment, terms: Terms) {
    exists op :: op in seen && op.txHash == tx && DetectorAccepts(op, terms)
      && payment == PaymentOf(op, terms, payment.confirmedAt)
  }

  ghost predicate PaymentsGenuine(db: Tables, seen: set<Operation>) {
    forall tx, sid :: (tx, sid) in db.payments ==>
      sid in db.sessions && PaysFor(seen, tx, db.payments[(tx, sid)], db.sessions[sid].terms)
  }

  ghost predicate PaidHavePayments(db: Tables) {
    forall sid :: sid in db.sessions && db.sessions[sid].status.Paid? ==> HasPayment(db, sid)
  }

  ghost predicate TaskGrounded(db: Tables, seen: set<Operation>, task: Task) {
    && task.sid in db.sessions
    && (task.Finalizing? || task.Confirming? ==>
         task.op in seen && DetectorAccepts(task.op, db.sessions[task.sid].terms))
    && (task.Reconciling? ==> task.terms == db.sessions[task.sid].terms)
    && (task.Repairing? || task.MarkingPaid? ==> HasPayment(db, task.sid))
  }

  ghost predicate TasksGrounded(db: Tables, seen: set<Operation>, tasks: map<nat, Task>) {
    forall t :: t in tasks ==> TaskGrounded(db, seen, tasks[t])
  }

  ghost predicate TimesOrdered(db: Tables, clock: int) {
    forall sid :: sid in db.sessions ==> db.sessions[sid].terms.createdAt <= db.sessions[sid].statusChangedAt <= clock
  }

  /** Claims and reverts alternate. */
  ghost predicate ClaimsBalanced(db: Tables, claims: multiset<SessionId>, reverts: multiset<SessionId>) {
    && (forall sid :: reverts[sid] <= claims[sid] <= reverts[sid] + 1)
    && (forall sid :: sid !in db.sessions ==> claims[sid] == 0)
    && (forall sid :: sid in db.sessions && db.sessions[sid].status.Pending? ==> claims[sid] == reverts[sid])
    && (forall sid :: sid in db.sessions && db.sessions[sid].status.Processing? ==> claims[sid] == reverts[sid] + 1)
  }

  ghost predicate Inv(w: World) {
    && PaymentsGenuine(w.db, w.seen) && PaidHavePayments(w.db) && TasksGrounded(w.db, w.seen, w.tasks)
    && TimesOrdered(w.db, w.clock) && ClaimsBalanced(w.db, w.claims, w.reverts)
  }

  // ---------------------------------------------------------------- what a statement does to the parts

  /** Sessions keep their terms, payments are only added, operations are only added. */
  ghost predicate Grows(db: Tables, seen: set<Operation>, db': Tables, seen': set<Operation>) {
    && (forall sid :: sid in db.sessions ==> sid in db'.sessions && db'.sessions[sid].terms == db.sessions[sid].terms)
    && (forall k :: k in db.payments.Keys ==> k in db'.payments.Keys && db'.payments[k] == db.payments[k])
    && seen <= seen'
  }

  lemma HasPaymentGrows(db: Tables, seen: set<Operation>, db': Tables, seen': set<Operation>, sid: SessionId)
    requires Grows(db, seen, db', seen') && HasPayment(db, sid)
    ensures HasPayment(db', sid)
  {
    var k :| k in db.payments.Keys && k.1 == sid;
    assert k in db'.payments.Keys;
  }

  lemma TasksStayGrounded(db: Tables, seen: set<Operation>, db': Tables, seen': set<Operation>, tasks: map<nat, Task>)
    requires Grows(db, seen, db', seen') && TasksGrounded(db, seen, tasks)
    ensures TasksGrounded(db', seen', tasks)
  {
    forall t | t in tasks ensures TaskGrounded(db', seen', tasks[t]) {
      assert TaskGrounded(db, seen, tasks[t]);
      if tasks[t].Repairing? || tasks[t].MarkingPaid? {
        HasPaymentGrows(db, seen, db', seen', tasks[t].sid);
      }
    }
  }

  lemma StatusGrows(db: Tables, seen: set<Operation>, seen': set<Operation>, sid: SessionId, status: Status, now: int)
    requires seen <= seen'
    ensures Grows(db, seen, SetStatus(db, sid, status, now), seen')
  {
  }

  lemma PaymentsStayGenuine(db: Tables, seen: set<Operation>, db': Tables, seen': set<Operation>)
    requires Grows(db, seen, db', seen') && PaymentsGenuine(db, seen) && db'.payments == db.payments
    ensures PaymentsGenuine(db', seen')
  {
    forall tx, sid | (tx, sid) in db'.payments
      ensures sid in db'.sessions && PaysFor(seen', tx, db'.payments[(tx, sid)], db'.sessions[sid].terms)
    {
      assert PaysFor(seen, tx, db.payments[(tx, sid)], db.sessions[sid].terms);
    }
  }

  lemma SetStatusKeeps(db: Tables, seen: set<Operation>, seen': set<Operation>, sid: SessionId, status: Status,
        clock: int)
    requires PaymentsGenuine(db, seen) && PaidHavePayments(db) && TimesOrdered(db, clock) && seen <= seen'
    requires status.Paid? ==> HasPayment(db, sid)
    ensures var db' := SetStatus(db, sid, status, clock);
      && Grows(db, seen, db', seen') && PaymentsGenuine(db', seen') && PaidHavePayments(db') && TimesOrdered(db', clock)
  {
    var db' := SetStatus(db, sid, status, clock);
    StatusGrows(db, seen, seen', sid, status, clock);
    PaymentsStayGenuine(db, seen, db', seen');
    forall x | x in db'.sessions && db'.sessions[x].status.Paid? ensures HasPayment(db', x) {
      HasPaymentGrows(db, seen, db', seen', x);
    }
  }

  lemma InsertKeeps(db: Tables, seen: set<Operation>, sid: SessionId, op: Operation, now: int)
    requires PaymentsGenuine(db, seen) && sid in db.sessions && op in seen
      && DetectorAccepts(op, db.sessions[sid].terms)
    ensures var db' := InsertPayment(db, sid, op, db.sessions[sid].terms, now);
      && Grows(db, seen, db', seen) && PaymentsGenuine(db', seen) && HasPayment(db', sid) && db'.sessions == db.sessions
  {
    var terms := db.sessions[sid].terms;
    var db' := InsertPayment(db, sid, op, terms, now);
    assert (op.txHash, sid) in db'.payments.Keys;
    assert PaysFor(seen, op.txHash, PaymentOf(op, terms, now), terms);
  }

  lemma FinalizeKeeps(db: Tables, seen: set<Operation>, sid: SessionId, op: Operation, clock: int)
    requires PaymentsGenuine(db, seen) && PaidHavePayments(db) && TimesOrdered(db, clock)
    requires sid in db.sessions && op in seen && DetectorAccepts(op, db.sessions[sid].terms)
    ensures var db' := Finalize(db, sid, op, clock);
      && Grows(db, seen, db', seen) && PaymentsGenuine(db', seen) && PaidHavePayments(db') && TimesOrdered(db', clock)
      && HasPayment(db', sid)
  {
    var db1 := InsertPayment(db, sid, op, db.sessions[sid].terms, clock);
    InsertKeeps(db, seen, sid, op, clock);
    forall x | x in db1.sessions && db1.sessions[x].status.Paid? ensures HasPayment(db1, x) {
      HasPaymentGrows(db, seen, db1, seen, x);
    }
    SetStatusKeeps(db1, seen, seen, sid, Paid, clock);
    HasPaymentGrows(db1, seen, Finalize(db, sid, op, clock), seen, sid);
  }

  // ---------------------------------------------------------------- each step keeps the invariant

  lemma CreateKeepsInv(w: World, sid: SessionId, terms: Terms, w': World)
    requires Inv(w) && Acts(w, Create(sid, terms), w')
    ensures Inv(w')
  {
    assert Grows(w.db, w.seen, w'.db, w.seen);
    PaymentsStayGenuine(w.db, w.seen, w'.db, w.seen);
    TasksStayGrounded(w.db, w.seen, w'.db, w.seen, w.tasks);
    forall x | x in w'.db.sessions && w'.db.sessions[x].status.Paid? ensures HasPayment(w'.db, x) {
      HasPaymentGrows(w.db, w.seen, w'.db, w.seen, x);
    }
  }

  lemma ReadKeepsInv(w: World, t: nat, task: Task)
    requires Inv(w) && TaskGrounded(w.db, w.seen, task)
    ensures Inv(Start(w, t, task))
  {
  }

  lemma ClaimKeepsInv(w: World, sid: SessionId, op: Operation, t: nat, w': World)
    requires Inv(w) && Acts(w, ClaimFor(sid, op, t), w')
    ensures Inv(w')
  {
    SetStatusKeeps(w.db, w.seen, w'.seen, sid, Processing, w.clock);
    TasksStayGrounded(w.db, w.seen, w'.db, w'.seen, w.tasks);
    assert TaskGrounded(w'.db, w'.seen, Finalizing(sid, op));
    ClaimBalances(w.db, w.claims, w.reverts, sid, w.clock);
  }

  lemma ClaimBalances(db: Tables, claims: multiset<SessionId>, reverts: multiset<SessionId>, sid: SessionId, now: int)
    requires ClaimsBalanced(db, claims, reverts) && sid in db.sessions && db.sessions[sid].status.Pending?
    ensures ClaimsBalanced(Claim(db, sid, now), claims + multiset{sid}, reverts)
  {
  }

  lemma CloseBalances(db: Tables, claims: multiset<SessionId>, reverts: multiset<SessionId>, sid: SessionId,
        status: Status, now: int)
    requires ClaimsBalanced(db, claims, reverts) && !status.Pending? && !status.Processing?
    ensures ClaimsBalanced(SetStatus(db, sid, status, now), claims, reverts)
  {
  }

  lemma RevertBalances(db: Tables, claims: multiset<SessionId>, reverts: multiset<SessionId>, sid: SessionId, now: int)
    requires ClaimsBalanced(db, claims, reverts) && IsProcessing(db, sid)
    ensures ClaimsBalanced(Revert(db, sid, now), claims, reverts + multiset{sid})
  {
  }

  lemma FewerTasks(db: Tables, seen: set<Operation>, tasks: map<nat, Task>, t: nat)
    requires TasksGrounded(db, seen, tasks)
    ensures TasksGrounded(db, seen, tasks - {t})
  {
  }

  lemma CloseKeepsInv(w: World, t: nat, sid: SessionId, status: Status)
    requires Inv(w) && !status.Pending? && !status.Processing? && (status.Paid? ==> HasPayment(w.db, sid))
    ensures Inv(End(w, t, SetStatus(w.db, sid, status, w.clock)))
  {
    hide PaymentsGenuine, PaidHavePayments, TasksGrounded, TimesOrdered, ClaimsBalanced, Grows;
    var db' := SetStatus(w.db, sid, status, w.clock);
    SetStatusKeeps(w.db, w.seen, w.seen, sid, status, w.clock);
    TasksStayGrounded(w.db, w.seen, db', w.seen, w.tasks);
    FewerTasks(db', w.seen, w.tasks, t);
    CloseBalances(w.db, w.claims, w.reverts, sid, status, w.clock);
  }

  lemma FinalizeKeepsInv(w: World, sid: SessionId, op: Operation)
    requires Inv(w) && sid in w.db.sessions && op in w.seen && DetectorAccepts(op, w.db.sessions[sid].terms)
    ensures Inv(w.(db := Finalize(w.db, sid, op, w.clock)))
  {
    var db' := Finalize(w.db, sid, op, w.clock);
    hide PaymentsGenuine, PaidHavePayments, TasksGrounded, TimesOrdered, ClaimsBalanced, Grows, DetectorAccepts;
    FinalizeKeeps(w.db, w.seen, sid, op, w.clock);
    TasksStayGrounded(w.db, w.seen, db', w.seen, w.tasks);
    InsertBalances(w.db, w.claims, w.reverts, sid, op, w.clock);
  }

  lemma InsertBalances(db: Tables, claims: multiset<SessionId>, reverts: multiset<SessionId>, sid: SessionId,
        op: Operation, now: int)
    requires ClaimsBalanced(db, claims, reverts)
    ensures ClaimsBalanced(Finalize(db, sid, op, now), claims, reverts)
  {
  }

  lemma RevertKeepsInv(w: World, t: nat, sid: SessionId)
    requires Inv(w) && IsProcessing(w.db, sid)
    ensures Inv(End(w, t, Revert(w.db, sid, w.clock)).(reverts := w.reverts + multiset{sid}))
  {
    hide PaymentsGenuine, PaidHavePayments, TasksGrounded, TimesOrdered, ClaimsBalanced, Grows;
    var db' := Revert(w.db, sid, w.clock);
    SetStatusKeeps(w.db, w.seen, w.seen, sid, Pending, w.clock);
    TasksStayGrounded(w.db, w.seen, db', w.seen, w.tasks);
    FewerTasks(db', w.seen, w.tasks, t);
    RevertBalances(w.db, w.claims, w.reverts, sid, w.clock);
  }

  lemma MoreSeen(w: World, op: Operation)
    requires Inv(w)
    ensures Inv(w.(seen := w.seen + {op}))
  {
    var seen' := w.seen + {op};
    assert Grows(w.db, w.seen, w.db, seen');
    PaymentsStayGenuine(w.db, w.seen, w.db, seen');
    TasksStayGrounded(w.db, w.seen, w.db, seen', w.tasks);
  }

  lemma EndKeepsInv(w: World, t: nat)
    requires Inv(w)
    ensures Inv(w.(tasks := w.tasks - {t}))
  {
    FewerTasks(w.db, w.seen, w.tasks, t);
  }

  lemma FinalizingKeepsInv(w: World, t: nat, sid: SessionId, op: Operation)
    requires Inv(w) && TaskGrounded(w.db, w.seen, Finalizing(sid, op))
    ensures Inv(w.(db := Finalize(w.db, sid, op, w.clock), tasks := w.tasks[t := Announcing(sid)]))
    ensures Inv(End(w, t, Finalize(w.db, sid, op, w.clock)))
  {
    hide Inv, Finalize, DetectorAccepts;
    var w1 := w.(db := Finalize(w.db, sid, op, w.clock));
    FinalizeKeepsInv(w, sid, op);
    FinalizeKeepsSessions(w.db, sid, op, w.clock);
    ReadKeepsInv(w1, t, Announcing(sid));
    EndKeepsInv(w1, t);
  }

  lemma ReconcilingKeepsInv(w: World, t: nat, sid: SessionId, terms: Terms, lookup: Lookup)
    requires Inv(w) && TaskGrounded(w.db, w.seen, Reconciling(sid, terms)) && Answers(lookup, terms)
    ensures lookup.Confirmed? ==> Inv(Start(w, t, Confirming(sid, lookup.op)).(seen := w.seen + {lookup.op}))
    ensures Inv(Start(w, t, Reverting(sid)))
  {
    hide Inv, DetectorAccepts, RecoveryAccepts;
    ReadKeepsInv(w, t, Reverting(sid));
    if lookup.Confirmed? {
      var w1 := w.(seen := w.seen + {lookup.op});
      SameAcceptance(lookup.op, terms);
      MoreSeen(w, lookup.op);
      assert TaskGrounded(w1.db, w1.seen, Confirming(sid, lookup.op));
      ReadKeepsInv(w1, t, Confirming(sid, lookup.op));
    }
  }

  lemma InspectingKeepsInv(w: World, t: nat, sid: SessionId)
    requires Inv(w) && sid in w.db.sessions
    ensures Inv(Start(w, t, if HasPayment(w.db, sid) then MarkingPaid(sid) else Expiring(sid)))
  {
    hide Inv;
    ReadKeepsInv(w, t, if HasPayment(w.db, sid) then MarkingPaid(sid) else Expiring(sid));
  }

  lemma RevertingKeepsInv(w: World, t: nat, sid: SessionId)
    requires Inv(w)
    ensures Inv(End(w, t, Revert(w.db, sid, w.clock)).(reverts := if IsProcessing(w.db, sid)
      then w.reverts + multiset{sid} else w.reverts))
  {
    hide Inv, SetStatus;
    if IsProcessing(w.db, sid) {
      RevertKeepsInv(w, t, sid);
    } else {
      RevertNothing(w.db, sid, w.clock);
      EndKeepsInv(w, t);
    }
  }

  lemma AnnouncingKeepsInv(w: World, t: nat, sid: SessionId)
    requires Inv(w)
    ensures Inv(End(w, t, w.db).(announced := w.announced + multiset{sid}))
  {
    EndKeepsInv(w, t);
    AnnouncedIsHistory(w.(tasks := w.tasks - {t}), sid);
  }

  lemma ContinueDetector(w: World, t: nat, lookup: Lookup)
    requires Inv(w) && t in w.tasks && TaskGrounded(w.db, w.seen, w.tasks[t])
    requires w.tasks[t].Finalizing? || w.tasks[t].Announcing? || w.tasks[t].Expiring? || w.tasks[t].Cancelling?
    ensures Inv(Continued(w, t, lookup))
  {
    hide Inv, DetectorAccepts, Finalize, SetStatus, HasPayment, Revert;
    match w.tasks[t]
    case Finalizing(sid, op) => FinalizingKeepsInv(w, t, sid, op);
    case Announcing(sid) => AnnouncingKeepsInv(w, t, sid);
    case Expiring(sid) => CloseKeepsInv(w, t, sid, Expired);
    case Cancelling(sid) => CloseKeepsInv(w, t, sid, Cancelled);
  }

  lemma ContinueLookup(w: World, t: nat, lookup: Lookup)
    requires Inv(w) && t in w.tasks && TaskGrounded(w.db, w.seen, w.tasks[t])
    requires w.tasks[t].Reconciling? || w.tasks[t].Confirming? || w.tasks[t].Reverting?
    requires w.tasks[t].Reconciling? ==> Answers(lookup, w.tasks[t].terms)
    ensures Inv(Continued(w, t, lookup))
  {
    hide Inv, DetectorAccepts, Answers, Finalize, SetStatus, HasPayment, Revert;
    match w.tasks[t]
    case Reconciling(sid, terms) => ReconcilingKeepsInv(w, t, sid, terms, lookup);
    case Confirming(sid, op) => FinalizingKeepsInv(w, t, sid, op);
    case Reverting(sid) => RevertingKeepsInv(w, t, sid);
  }

  lemma ContinueKeepsInv(w: World, t: nat, lookup: Lookup)
    requires Inv(w) && t in w.tasks && (w.tasks[t].Reconciling? ==> Answers(lookup, w.tasks[t].terms))
    ensures Inv(Continued(w, t, lookup))
  {
    assert TaskGrounded(w.db, w.seen, w.tasks[t]);
    hide Inv, DetectorAccepts, Answers, Finalize, SetStatus, HasPayment, Revert, Continued;
    match w.tasks[t]
    case Finalizing(sid, op) => ContinueDetector(w, t, lookup);
    case Announcing(sid) => ContinueDetector(w, t, lookup);
    case Expiring(sid) => ContinueDetector(w, t, lookup);
    case Cancelling(sid) => ContinueDetector(w, t, lookup);
    case Reconciling(sid, terms) => ContinueLookup(w, t, lookup);
    case Confirming(sid, op) => ContinueLookup(w, t, lookup);
    case Reverting(sid) => ContinueLookup(w, t, lookup);
    case Repairing(sid) => ContinueRepair(w, t, lookup);
    case Inspecting(sid) => ContinueRepair(w, t, lookup);
    case MarkingPaid(sid) => ContinueRepair(w, t, lookup);
  }

  lemma ContinueRepair(w: World, t: nat, lookup: Lookup)
    requires Inv(w) && t in w.tasks && TaskGrounded(w.db, w.seen, w.tasks[t])
    requires w.tasks[t].Repairing? || w.tasks[t].Inspecting? || w.tasks[t].MarkingPaid?
    ensures Inv(Continued(w, t, lookup))
  {
    hide Inv, DetectorAccepts, Finalize, SetStatus, HasPayment, Revert;
    match w.tasks[t]
    case Repairing(sid) => CloseKeepsInv(w, t, sid, Paid);
    case Inspecting(sid) => InspectingKeepsInv(w, t, sid);
    case MarkingPaid(sid) => CloseKeepsInv(w, t, sid, Paid);
  }

  lemma RevertNothing(db: Tables, sid: SessionId, now: int)
    requires !IsProcessing(db, sid)
    ensures Revert(db, sid, now) == db
  {
  }

  lemma FinalizeKeepsSessions(db: Tables, sid: SessionId, op: Operation, now: int)
    ensures Finalize(db, sid, op, now).sessions.Keys == db.sessions.Keys
  {
  }

  lemma AnnouncedIsHistory(w: World, sid: SessionId)
    requires Inv(w)
    ensures Inv(w.(announced := w.announced + multiset{sid}))
  {
  }

  lemma ActKeepsInv(w: World, step: Step, w': World)
    requires Inv(w) && Acts(w, step, w')
    ensures Inv(w')
  {
    hide Inv, Continued, DetectorAccepts, HasPayment;
    match step
    case Create(sid, terms) => CreateKeepsInv(w, sid, terms, w');
    case ReadForExpiry(sid, t) => ReadKeepsInv(w, t, Expiring(sid));
    case ReadForCancel(sid, merchantId, t) => ReadKeepsInv(w, t, Cancelling(sid));
    case ClaimFor(sid, op, t) => ClaimKeepsInv(w, sid, op, t, w');
    case SelectStuck(sid, t) => ReadKeepsInv(w, t, Reconciling(sid, w.db.sessions[sid].terms));
    case SelectPaidPending(sid, t) => ReadKeepsInv(w, t, Repairing(sid));
    case SelectStalePending(sid, t) => ReadKeepsInv(w, t, Inspecting(sid));
    case Continue(t, lookup) => ContinueKeepsInv(w, t, lookup);
    case Die(t) => EndKeepsInv(w, t);
  }

  lemma ClockKeepsInv(w: World, clock: int)
    requires Inv(w) && clock >= w.clock
    ensures Inv(w.(clock := clock))
  {
  }

  lemma NextKeepsInv(w: World, step: Step, w': World)
    requires Inv(w) && Next(w, step, w')
    ensures Inv(w')
  {
    hide Inv, Acts;
    ClockKeepsInv(w, w'.clock);
    ActKeepsInv(w.(clock := w'.clock), step, w');
  }

  lemma InvInitially(ws: seq<World>)
    requires exists clock :: ws != [] && ws[0] == InitialWorld(clock)
    ensures Inv(ws[0])
  {
  }

  lemma {:induction false} RunKeepsInv(ws: seq<World>, steps: seq<Step>)
    requires IsRun(ws, steps)
    ensures forall i :: 0 <= i < |ws| ==> Inv(ws[i])
  {
    hide Inv, Next, InitialWorld;
    if steps == [] {
      InvInitially(ws);
    } else {
      var n := |steps| - 1;
      RunKeepsInv(ws[..n + 1], steps[..n]);
      assert Inv(ws[..n + 1][n]);
      NextKeepsInv(ws[n], steps[n], ws[n + 1]);
      assert forall i :: 0 <= i <= n ==> ws[i] == ws[..n + 1][i];
    }
  }

  // ---------------------------------------------------------------- main results

  /** In every run, whatever interleaves and whatever dies: a paid session has a payment row, and every payment row was
      made from a reported operation with the session's memo, an equal amount, and its asset unless that is the native
      one. */
  lemma PaidImpliesPaidFor(ws: seq<World>, steps: seq<Step>, i: nat, sid: SessionId)
    requires IsRun(ws, steps) && i < |ws| && sid in ws[i].db.sessions
    ensures ws[i].db.sessions[sid].status.Paid? ==> HasPayment(ws[i].db, sid)
    ensures forall tx :: (tx, sid) in ws[i].db.payments ==>
      PaysFor(ws[i].seen, tx, ws[i].db.payments[(tx, sid)], ws[i].db.sessions[sid].terms)
  {
    RunKeepsInv(ws, steps);
    assert Inv(ws[i]);
  }

  /** Field by field: behind every payment row is a reported operation of that transaction that pays for the session,
      and the row holds what it said. */
  lemma RowsRecordOperations(ws: seq<World>, steps: seq<Step>, i: nat, tx: TxHash, sid: SessionId)
      returns (op: Operation)
    requires IsRun(ws, steps) && i < |ws| && (tx, sid) in ws[i].db.payments
    ensures sid in ws[i].db.sessions && op in ws[i].seen && op.txHash == tx
    ensures var terms := ws[i].db.sessions[sid].terms;
      && op.isPayment && op.memo != "" && terms.memo == Some(op.memo) && AreAmountsEqual(op.amount, terms.amount)
      && (terms.assetCode == "XLM" || op.assetCode == Some(terms.assetCode))
    ensures var terms, payment := ws[i].db.sessions[sid].terms, ws[i].db.payments[(tx, sid)];
      && payment.merchantId == terms.merchantId && payment.amount == op.amount && payment.sender == op.sender
      && payment.assetCode == (if op.assetCode == None then "XLM" else op.assetCode.value)
      && payment.assetIssuer == op.assetIssuer
  {
    hide Next, AreAmountsEqual, TasksGrounded, TimesOrdered, ClaimsBalanced, PaidHavePayments;
    RunKeepsInv(ws, steps);
    assert Inv(ws[i]);
    var terms, payment := ws[i].db.sessions[sid].terms, ws[i].db.payments[(tx, sid)];
    assert PaysFor(ws[i].seen, tx, payment, terms);
    op :| op in ws[i].seen && op.txHash == tx && DetectorAccepts(op, terms)
      && payment == PaymentOf(op, terms, payment.confirmedAt);
  }

  /** In every run and for every session: claims exceed reverts by at most one, and equal them while the session is
      pending. */
  lemma ClaimsAreAccounted(ws: seq<World>, steps: seq<Step>, i: nat, sid: SessionId)
    requires IsRun(ws, steps) && i < |ws|
    ensures ws[i].claims[sid] <= ws[i].reverts[sid] + 1
    ensures IsPending(ws[i], sid) ==> ws[i].claims[sid] == ws[i].reverts[sid]
    ensures IsProcessing(ws[i].db, sid) ==> ws[i].claims[sid] == ws[i].reverts[sid] + 1
    ensures sid in ws[i].db.sessions ==>
      ws[i].db.sessions[sid].terms.createdAt <= ws[i].db.sessions[sid].statusChangedAt
  {
    RunKeepsInv(ws, steps);
    assert Inv(ws[i]);
  }
}
