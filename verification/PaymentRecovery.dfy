/** The recovery job's passes over the tables, run without interference (src/payments/payment-recovery.service.ts). */
module PaymentRecovery {
  import opened Options
  import opened CheckoutTables

  /** What Horizon answers throughout one run: the recent operations of each account, newest first, and the transactions
      that succeeded. */
  datatype Horizon = Horizon(recent: map<string, seq<Operation>>, successful: set<TxHash>)

  datatype Confirmation = Confirmation(
    sid: SessionId, merchantId: MerchantId, txHash: TxHash, amount: string, asset: string, sender: string)

  function RecordsOf(h: Horizon, account: string): seq<Operation> {
    if account in h.recent then h.recent[account] else []
  }

  /** `records.find(...)` */
  function FindMatch(records: seq<Operation>, terms: Terms): (found: Option<Operation>)
    ensures found.Some? ==> found.value in records && RecoveryAccepts(found.value, terms)
    ensures found.None? ==> forall op :: op in records ==> !RecoveryAccepts(op, terms)
  {
    if records == [] then None
    else if RecoveryAccepts(records[0], terms) then Some(records[0])
    else FindMatch(records[1..], terms)
  }

  predicate NoneBefore(records: seq<Operation>, terms: Terms, i: nat)
    requires i <= |records|
  {
    forall j :: 0 <= j < i ==> !RecoveryAccepts(records[j], terms)
  }

  /** The search returns the first accepted record. */
  lemma {:induction false} FirstIsFound(records: seq<Operation>, terms: Terms, i: nat)
    requires i < |records| && RecoveryAccepts(records[i], terms) && NoneBefore(records, terms, i)
    ensures FindMatch(records, terms) == Some(records[i])
  {
    hide RecoveryAccepts;
    if i > 0 {
      FirstIsFound(records[1..], terms, i - 1);
    }
  }

  lemma {:induction false} FoundIsFirst(records: seq<Operation>, terms: Terms) returns (i: nat)
    requires FindMatch(records, terms).Some?
    ensures i < |records| && FindMatch(records, terms) == Some(records[i]) && NoneBefore(records, terms, i)
  {
    hide RecoveryAccepts;
    if RecoveryAccepts(records[0], terms) {
      i := 0;
    } else {
      var k := FoundIsFirst(records[1..], terms);
      i := k + 1;
      assert forall j :: 0 < j < i ==> records[j] == records[1..][j - 1];
    }
  }

  /** The operation that settles a stuck session, if Horizon has one and its transaction succeeded. */
  function Settlement(h: Horizon, terms: Terms): Option<Operation> {
    match FindMatch(RecordsOf(h, terms.receivingAccount), terms)
    case None => None
    case Some(op) => if op.txHash in h.successful then Some(op) else None
  }

  function ConfirmationOf(sid: SessionId, op: Operation, terms: Terms): Confirmation {
    Confirmation(sid, terms.merchantId, op.txHash, op.amount, PaymentOf(op, terms, 0).assetCode, op.sender)
  }

  function ConfirmationFrom(k: (TxHash, SessionId), payment: Payment, terms: Terms): Confirmation {
    Confirmation(k.1, terms.merchantId, k.0, payment.amount, payment.assetCode, payment.sender)
  }

  /** A stuck session is settled by an operation exactly when that is the first of its account's recent operations that
      the search accepts, and its transaction succeeded. */
  lemma SettlementMeans(h: Horizon, terms: Terms, op: Operation)
    ensures Settlement(h, terms) == Some(op) <==>
      && terms.receivingAccount in h.recent && op.txHash in h.successful && RecoveryAccepts(op, terms)
      && var records := h.recent[terms.receivingAccount];
        exists i: nat :: i < |records| && records[i] == op && NoneBefore(records, terms, i)
  {
    hide RecoveryAccepts, NoneBefore;
    var records := RecordsOf(h, terms.receivingAccount);
    if FindMatch(records, terms).Some? {
      var i := FoundIsFirst(records, terms);
      assert records[i] == FindMatch(records, terms).value;
    }
    forall i: nat | i < |records| && records[i] == op && NoneBefore(records, terms, i) && RecoveryAccepts(op, terms)
      ensures FindMatch(records, terms) == Some(op)
    {
      FirstIsFound(records, terms, i);
    }
  }

  /** What the merchant is told, and that the recovery of a stuck session and that of a paid pending one tell the
      same. */
  lemma ConfirmationTells(sid: SessionId, op: Operation, terms: Terms, now: int)
    ensures var told := ConfirmationOf(sid, op, terms);
      && told.sid == sid && told.merchantId == terms.merchantId && told.txHash == op.txHash && told.amount == op.amount
      && told.asset == (if op.assetCode == None then "XLM" else op.assetCode.value) && told.sender == op.sender
    ensures ConfirmationFrom((op.txHash, sid), PaymentOf(op, terms, now), terms) == ConfirmationOf(sid, op, terms)
  {
  }

  lemma ConfirmationFromTells(k: (TxHash, SessionId), payment: Payment, terms: Terms)
    ensures var told := ConfirmationFrom(k, payment, terms);
      && told.txHash == k.0 && told.sid == k.1 && told.merchantId == terms.merchantId
      && told.amount == payment.amount && told.asset == payment.assetCode && told.sender == payment.sender
  {
  }

  // ---------------------------------------------------------------- what each pass selects and does

  predicate IsStuck(session: Session, now: int) {
    session.status.Processing? && session.statusChangedAt < now - STALE_MS
  }

  predicate IsStale(session: Session, now: int) {
    session.status.Pending? && session.terms.createdAt < now - STALE_MS
  }

  function StuckIds(db: Tables, now: int): set<SessionId> {
    set sid | sid in db.sessions.Keys && IsStuck(db.sessions[sid], now)
  }

  function StaleIds(db: Tables, now: int): set<SessionId> {
    set sid | sid in db.sessions.Keys && IsStale(db.sessions[sid], now)
  }

  /** The join of pending sessions with payments. */
  function PaidPendingKeys(db: Tables): set<(TxHash, SessionId)> {
    set k | k in db.payments.Keys && k.1 in db.sessions && db.sessions[k.1].status.Pending?
  }

  function Settled(db: Tables, h: Horizon, now: int, sid: SessionId): Tables
    requires sid in db.sessions
  {
    match Settlement(h, db.sessions[sid].terms)
    case None => Revert(db, sid, now)
    case Some(op) => Finalize(db, sid, op, now)
  }

  function SettledSession(session: Session, h: Horizon, now: int, taken: bool): Session {
    if !taken then session
    else Session(session.terms, if Settlement(h, session.terms).Some? then Paid else Pending, now)
  }

  /** The tables after the stuck sessions in `done` were settled. */
  ghost predicate AfterStuck(db: Tables, h: Horizon, now: int, done: set<SessionId>, db': Tables)
    requires done <= db.sessions.Keys
  {
    && (forall sid :: sid in db'.sessions <==> sid in db.sessions)
    && (forall sid :: sid in db.sessions ==> db'.sessions[sid] == SettledSession(db.sessions[sid], h, now, sid in done))
    && (forall k :: k in db.payments.Keys ==> k in db'.payments.Keys && db'.payments[k] == db.payments[k])
    && (forall k :: k in db'.payments.Keys && k !in db.payments.Keys ==>
         && k.1 in done && Settlement(h, db.sessions[k.1].terms).Some?
         && Settlement(h, db.sessions[k.1].terms).value.txHash == k.0
         && db'.payments[k] == PaymentOf(Settlement(h, db.sessions[k.1].terms).value, db.sessions[k.1].terms, now))
    && (forall sid :: sid in done && Settlement(h, db.sessions[sid].terms).Some? ==>
         (Settlement(h, db.sessions[sid].terms).value.txHash, sid) in db'.payments.Keys)
  }

  /** The tables after the sessions in `done` were given a final status: paid when a payment exists. */
  ghost predicate AfterMarking(db: Tables, now: int, done: set<SessionId>, otherwise: Status, db': Tables) {
    && db'.payments == db.payments
    && (forall sid :: sid in db'.sessions <==> sid in db.sessions)
    && (forall sid :: sid in db.sessions && sid !in done ==> db'.sessions[sid] == db.sessions[sid])
    && (forall sid :: sid in db.sessions && sid in done ==>
          db'.sessions[sid] == Session(db.sessions[sid].terms, if HasPayment(db, sid) then Paid else otherwise, now))
  }

  function SessionsOf(keys: set<(TxHash, SessionId)>): set<SessionId> {
    set k | k in keys :: k.1
  }

  function SettledConfirmations(db: Tables, h: Horizon, done: set<SessionId>): set<Confirmation>
    requires done <= db.sessions.Keys
  {
    set sid | sid in done && Settlement(h, db.sessions[sid].terms).Some? ::
      ConfirmationOf(sid, Settlement(h, db.sessions[sid].terms).value, db.sessions[sid].terms)
  }

  function RepairedConfirmations(db: Tables, done: set<(TxHash, SessionId)>): set<Confirmation>
    requires forall k :: k in done ==> k in db.payments && k.1 in db.sessions
  {
    set k | k in done :: ConfirmationFrom(k, db.payments[k], db.sessions[k.1].terms)
  }

  /** One whole run: stuck sessions settled, pending sessions with payments marked paid, stale pending ones closed. */
  ghost predicate IsPass(db: Tables, h: Horizon, now: int, db1: Tables, db2: Tables, db3: Tables) {
    && AfterStuck(db, h, now, StuckIds(db, now), db1)
    && AfterMarking(db1, now, SessionsOf(PaidPendingKeys(db1)), Paid, db2)
    && AfterMarking(db2, now, StaleIds(db2, now), Expired, db3)
  }

  // ---------------------------------------------------------------- main results

  lemma NoneIsStuck(db: Tables, h: Horizon, now: int, db1: Tables, db2: Tables, db3: Tables)
    requires IsPass(db, h, now, db1, db2, db3)
    ensures StuckIds(db3, now) == {}
  {
    hide HasPayment, Settlement, PaidPendingKeys, StaleIds;
  }

  lemma NoneIsStale(now: int, db2: Tables, db3: Tables)
    requires AfterMarking(db2, now, StaleIds(db2, now), Expired, db3)
    ensures StaleIds(db3, now) == {}
  {
    hide HasPayment;
  }

  lemma NoneIsPaidPending(now: int, db1: Tables, db2: Tables, db3: Tables)
    requires AfterMarking(db1, now, SessionsOf(PaidPendingKeys(db1)), Paid, db2)
    requires AfterMarking(db2, now, StaleIds(db2, now), Expired, db3)
    ensures PaidPendingKeys(db3) == {}
  {
    hide IsStale;
    forall k | k in db3.payments.Keys && k.1 in db3.sessions ensures !db3.sessions[k.1].status.Pending? {
      assert k in db1.payments.Keys && HasPayment(db1, k.1);
      PaidPendingSessions(db1, k.1);
    }
  }

  /** After a run no session is stale pending or stuck processing: none processing since before five minutes ago, none
      pending that was created before then, and none pending with a payment. */
  lemma PassConverges(db: Tables, h: Horizon, now: int, db1: Tables, db2: Tables, db3: Tables)
    requires IsPass(db, h, now, db1, db2, db3)
    ensures StuckIds(db3, now) == {} && StaleIds(db3, now) == {} && PaidPendingKeys(db3) == {}
    ensures forall sid :: sid in db3.sessions && db3.sessions[sid].status.Processing? ==>
      db3.sessions[sid].statusChangedAt >= now - 300_000
    ensures forall sid :: sid in db3.sessions && db3.sessions[sid].status.Pending? ==>
      db3.sessions[sid].terms.createdAt >= now - 300_000 && !HasPayment(db3, sid)
  {
    NoneIsStuck(db, h, now, db1, db2, db3);
    NothingLeft(db3, now);
    hide AfterStuck, AfterMarking, StuckIds, StaleIds, PaidPendingKeys;
    NoneIsStale(now, db2, db3);
    NoneIsPaidPending(now, db1, db2, db3);
  }

  /** What empty selections say of the rows. */
  lemma NothingLeft(db: Tables, now: int)
    ensures StuckIds(db, now) == {} ==> forall sid :: sid in db.sessions && db.sessions[sid].status.Processing? ==>
      db.sessions[sid].statusChangedAt >= now - 300_000
    ensures StaleIds(db, now) == {} ==> forall sid :: sid in db.sessions && db.sessions[sid].status.Pending? ==>
      db.sessions[sid].terms.createdAt >= now - 300_000
    ensures PaidPendingKeys(db) == {} ==> forall sid :: sid in db.sessions && db.sessions[sid].status.Pending? ==>
      !HasPayment(db, sid)
  {
    if StuckIds(db, now) == {} {
      forall sid | sid in db.sessions && db.sessions[sid].status.Processing?
        ensures db.sessions[sid].statusChangedAt >= now - 300_000
      {
        assert sid !in StuckIds(db, now);
      }
    }
    if StaleIds(db, now) == {} {
      forall sid | sid in db.sessions && db.sessions[sid].status.Pending?
        ensures db.sessions[sid].terms.createdAt >= now - 300_000
      {
        assert sid !in StaleIds(db, now);
      }
    }
    if PaidPendingKeys(db) == {} {
      forall sid | sid in db.sessions && db.sessions[sid].status.Pending? ensures !HasPayment(db, sid) {
        PaidPendingSessions(db, sid);
        assert SessionsOf(PaidPendingKeys(db)) == {};
      }
    }
  }

  lemma NothingSettled(db: Tables, h: Horizon, now: int, db': Tables)
    requires AfterStuck(db, h, now, {}, db')
    ensures db' == db
  {
    assert db'.sessions == db.sessions;
    assert db'.payments == db.payments;
  }

  lemma NothingMarked(db: Tables, now: int, otherwise: Status, db': Tables)
    requires AfterMarking(db, now, {}, otherwise, db')
    ensures db' == db
  {
    assert db'.sessions == db.sessions;
  }

  /** A second run at the same time changes no row and sends no webhook. */
  lemma PassIsIdempotent(db: Tables, h: Horizon, now: int, db1: Tables, db2: Tables, db3: Tables, db4: Tables,
        db5: Tables, db6: Tables)
    requires IsPass(db, h, now, db1, db2, db3) && IsPass(db3, h, now, db4, db5, db6)
    ensures db6 == db3
    ensures SettledConfirmations(db3, h, StuckIds(db3, now)) == {}
      && RepairedConfirmations(db4, PaidPendingKeys(db4)) == {}
  {
    PassConverges(db, h, now, db1, db2, db3);
    hide AfterStuck, AfterMarking;
    NothingSettled(db3, h, now, db4);
    NothingMarked(db4, now, Paid, db5);
    NothingMarked(db5, now, Expired, db6);
  }

  /** What becomes of a stuck session: paid if Horizon has a successful payment for it or a payment row existed already,
      else expired if it is over five minutes old, which it is as soon as no session changed before it was created. */
  lemma StuckSessionsAreSettled(db: Tables, h: Horizon, now: int, db1: Tables, db2: Tables, db3: Tables, sid: SessionId)
    requires IsPass(db, h, now, db1, db2, db3) && sid in db.sessions
    requires db.sessions[sid].status.Processing? && db.sessions[sid].statusChangedAt < now - 300_000
    ensures sid in db3.sessions
    ensures db3.sessions[sid].status.Paid? <==> Settlement(h, db.sessions[sid].terms).Some? || HasPayment(db, sid)
    ensures db3.sessions[sid].status.Paid? ==> HasPayment(db3, sid)
    ensures !db3.sessions[sid].status.Paid? ==>
      db3.sessions[sid].status == if db.sessions[sid].terms.createdAt < now - 300_000 then Expired else Pending
    ensures db3.sessions[sid].terms == db.sessions[sid].terms && db3.sessions[sid].statusChangedAt == now
    ensures db.sessions[sid].terms.createdAt <= db.sessions[sid].statusChangedAt ==>
      db3.sessions[sid].status.Paid? || db3.sessions[sid].status.Expired?
  {
    assert sid in StuckIds(db, now);
    var settled := Settlement(h, db.sessions[sid].terms);
    assert HasPayment(db1, sid) <==> HasPayment(db, sid) || settled.Some? by {
      if HasPayment(db, sid) {
        var k :| k in db.payments.Keys && k.1 == sid;
        assert k in db1.payments.Keys;
      }
      if settled.Some? {
        assert (settled.value.txHash, sid) in db1.payments.Keys;
      }
    }
    PaidPendingSessions(db1, sid);
    assert HasPayment(db2, sid) == HasPayment(db1, sid) == HasPayment(db3, sid);
  }

  lemma PaidPendingSessions(db: Tables, sid: SessionId)
    ensures sid in SessionsOf(PaidPendingKeys(db)) <==>
      sid in db.sessions && db.sessions[sid].status.Pending? && HasPayment(db, sid)
  {
    if sid in db.sessions && db.sessions[sid].status.Pending? && HasPayment(db, sid) {
      var k :| k in db.payments.Keys && k.1 == sid;
      assert k in PaidPendingKeys(db);
    }
  }

  /** Sessions that are neither pending nor processing since before five minutes ago are left alone, nobody is told
      anything about them, and no payment row is ever changed or removed. */
  lemma PassLeavesTheRest(db: Tables, h: Horizon, now: int, db1: Tables, db2: Tables, db3: Tables, sid: SessionId)
    requires IsPass(db, h, now, db1, db2, db3) && sid in db.sessions
    requires !db.sessions[sid].status.Pending?
    requires db.sessions[sid].status.Processing? ==> db.sessions[sid].statusChangedAt >= now - 300_000
    ensures sid in db3.sessions && db3.sessions[sid] == db.sessions[sid]
    ensures forall told :: told in SettledConfirmations(db, h, StuckIds(db, now)) ==> told.sid != sid
    ensures forall told :: told in RepairedConfirmations(db1, PaidPendingKeys(db1)) ==> told.sid != sid
    ensures forall k :: k in db.payments.Keys ==> k in db3.payments.Keys && db3.payments[k] == db.payments[k]
  {
    PaidPendingSessions(db1, sid);
  }

  /** A pending session with a payment becomes paid at whatever age. Without one it expires exactly when it was created
      before five minutes ago, and otherwise stays as it was. */
  lemma PendingSessionsAreClosed(db: Tables, h: Horizon, now: int, db1: Tables, db2: Tables, db3: Tables,
        sid: SessionId)
    requires IsPass(db, h, now, db1, db2, db3) && sid in db.sessions && db.sessions[sid].status.Pending?
    ensures sid in db3.sessions
    ensures db3.sessions[sid] ==
      if HasPayment(db, sid) then Session(db.sessions[sid].terms, Paid, now)
      else if db.sessions[sid].terms.createdAt < now - 300_000 then Session(db.sessions[sid].terms, Expired, now)
      else db.sessions[sid]
    ensures HasPayment(db3, sid) <==> HasPayment(db, sid)
  {
    hide Settlement;
    assert sid !in StuckIds(db, now);
    assert HasPayment(db1, sid) <==> HasPayment(db, sid) by {
      if HasPayment(db, sid) {
        var k :| k in db.payments.Keys && k.1 == sid;
        assert k in db1.payments.Keys;
      }
    }
    PaidPendingSessions(db1, sid);
    assert HasPayment(db2, sid) == HasPayment(db1, sid) == HasPayment(db3, sid);
  }

  // ---------------------------------------------------------------- one row of a pass

  lemma SettleOneMore(db: Tables, h: Horizon, now: int, done: set<SessionId>, sid: SessionId, before: Tables)
    requires done <= db.sessions.Keys && sid in db.sessions && sid !in done && db.sessions[sid].status.Processing?
    requires AfterStuck(db, h, now, done, before)
    ensures sid in before.sessions && before.sessions[sid] == db.sessions[sid]
    ensures AfterStuck(db, h, now, done + {sid}, Settled(before, h, now, sid))
  {
    var after, settled := Settled(before, h, now, sid), Settlement(h, db.sessions[sid].terms);
    if settled.Some? {
      var key := (settled.value.txHash, sid);
      assert after.payments.Keys == before.payments.Keys + {key};
      assert key in before.payments.Keys ==> key in db.payments.Keys;
    }
  }

  lemma MarkOneMore(db: Tables, now: int, done: set<SessionId>, sid: SessionId, otherwise: Status, before: Tables,
        status: Status)
    requires AfterMarking(db, now, done, otherwise, before) && sid in db.sessions
    requires status == if HasPayment(db, sid) then Paid else otherwise
    ensures AfterMarking(db, now, done + {sid}, otherwise, SetStatus(before, sid, status, now))
  {
  }
}
