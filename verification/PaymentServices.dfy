/** The services that read and update the tables (src/checkout/checkout.service.ts,
    src/payments/payment-detector.service.ts, src/payments/payment-recovery.service.ts), each method run without
    interference. */
module PaymentServices {
  import opened Options
  import opened AmountUtils
  import opened CheckoutTables
  import opened PaymentRecovery

  class Database {
    var sessions: map<SessionId, Session>
    var payments: map<(TxHash, SessionId), Payment>
    /** The `payment.confirmed` webhooks handed to the queue. */
    var confirmations: multiset<Confirmation>

    function State(): Tables
      reads this
    {
      Tables(sessions, payments)
    }

    method UpdateStatus(sid: SessionId, status: Status, now: int)
      modifies this`sessions
      ensures State() == SetStatus(old(State()), sid, status, now)
    {
      if sid in sessions {
        sessions := sessions[sid := Session(sessions[sid].terms, status, now)];
      }
    }

    method InsertPaymentAndMarkPaid(sid: SessionId, op: Operation, now: int)
      requires sid in sessions
      modifies this`sessions, this`payments
      ensures State() == Finalize(old(State()), sid, op, now)
    {
      if (op.txHash, sid) !in payments {
        var assetCode := match op.assetCode case None => NATIVE_ASSET case Some(code) => code;
        payments := payments[(op.txHash, sid) :=
          Payment(sessions[sid].terms.merchantId, op.amount, assetCode, op.assetIssuer, op.sender, now)];
      }
      UpdateStatus(sid, Paid, now);
    }
  }

  datatype CancelOutcome = Done | NotFound | NotPending

  class CheckoutService {
    const db: Database
    const receivingAccount: Option<string>
    const sessionTtlMinutes: int

    /** The configured account and lifetime; half an hour by default. */
    constructor (db: Database, receivingAccount: Option<string>, sessionTtlMinutes: Option<int>)
      ensures this.db == db && this.receivingAccount == receivingAccount
      ensures this.sessionTtlMinutes == match sessionTtlMinutes case Some(minutes) => minutes case None => 30
    {
      this.db := db;
      this.receivingAccount := receivingAccount;
      this.sessionTtlMinutes := match sessionTtlMinutes case Some(minutes) => minutes case None => 30;
    }

    /** `sid` and `memo` are the random values drawn. Nothing is created without a receiving account. */
    method CreateSession(merchantId: MerchantId, amount: string, assetCode: string, assetIssuer: Option<string>,
                         sid: SessionId, memo: string, now: int)
      returns (created: bool)
      requires sid !in db.sessions
      modifies db`sessions
      ensures created <==> receivingAccount.Some? && receivingAccount.value != ""
      ensures !created ==> db.sessions == old(db.sessions)
      ensures created ==>
        && db.sessions.Keys == old(db.sessions).Keys + {sid}
        && (forall x :: x in old(db.sessions) ==> db.sessions[x] == old(db.sessions)[x])
        && db.sessions[sid].status.Pending? && db.sessions[sid].statusChangedAt == now
        && db.sessions[sid].terms
             == Terms(merchantId, amount, assetCode, assetIssuer, receivingAccount.value, Some(memo),
                      now + sessionTtlMinutes * 60_000, now)
    {
      if receivingAccount == None || receivingAccount.value == "" {
        return false;
      }
      var expiresAt := now + sessionTtlMinutes * 60 * 1000;
      var terms := Terms(merchantId, amount, assetCode, assetIssuer, receivingAccount.value, Some(memo), expiresAt,
                         now);
      db.sessions := db.sessions[sid := Session(terms, Pending, now)];
      created := true;
    }

    /** The status shown; a pending session past its expiry is expired on the way. */
    method GetSession(sid: SessionId, now: int) returns (shown: Option<Status>)
      modifies db`sessions
      ensures sid !in old(db.sessions) ==> shown == None && db.State() == old(db.State())
      ensures sid in old(db.sessions) ==>
        var overdue := old(db.sessions[sid]).status.Pending? && now > old(db.sessions[sid]).terms.expiresAt;
        && shown == Some(if overdue then Expired else old(db.sessions[sid]).status)
        && db.State() == if overdue then SetStatus(old(db.State()), sid, Expired, now) else old(db.State())
    {
      if sid !in db.sessions {
        return None;
      }
      var session := db.sessions[sid];
      if session.status == Pending && now > session.terms.expiresAt {
        db.UpdateStatus(sid, Expired, now);
        return Some(Expired);
      }
      shown := Some(session.status);
    }

    method CancelSession(sid: SessionId, merchantId: MerchantId, now: int) returns (outcome: CancelOutcome)
      modifies db`sessions
      ensures outcome == NotFound <==> sid !in old(db.sessions) || old(db.sessions[sid]).terms.merchantId != merchantId
      ensures outcome == NotPending <==>
        sid in old(db.sessions) && old(db.sessions[sid]).terms.merchantId == merchantId
          && !old(db.sessions[sid]).status.Pending?
      ensures db.State() == if outcome == Done then SetStatus(old(db.State()), sid, Cancelled, now) else old(db.State())
    {
      if sid !in db.sessions || db.sessions[sid].terms.merchantId != merchantId {
        return NotFound;
      }
      if db.sessions[sid].status != Pending {
        return NotPending;
      }
      db.UpdateStatus(sid, Cancelled, now);
      outcome := Done;
    }
  }

  /** A session with the memo, or none when no session has it. */
  ghost predicate IsFirstByMemo(db: Tables, memo: string, locked: Option<SessionId>) {
    if locked.Some? then locked.value in db.sessions && db.sessions[locked.value].terms.memo == Some(memo)
    else forall sid :: sid in db.sessions ==> db.sessions[sid].terms.memo != Some(memo)
  }

  lemma FirstByMemo(db: Tables, memo: string) returns (locked: Option<SessionId>)
    ensures IsFirstByMemo(db, memo, locked)
  {
    if sid :| sid in db.sessions && db.sessions[sid].terms.memo == Some(memo) {
      locked := Some(sid);
    } else {
      locked := None;
    }
  }

  class PaymentDetectorService {
    const db: Database

    constructor (db: Database)
      ensures this.db == db
    {
      this.db := db;
    }

    /** The first row the memo lookup lists, in whatever order the database lists them. */
    method LockByMemo(memo: string) returns (locked: Option<SessionId>)
      ensures IsFirstByMemo(db.State(), memo, locked)
    {
      var rows := set sid | sid in db.sessions.Keys && db.sessions[sid].terms.memo == Some(memo);
      if rows == {} {
        assert forall sid :: sid in db.sessions && db.sessions[sid].terms.memo == Some(memo) ==> sid in rows;
        return None;
      }
      var sid :| sid in rows;
      locked := Some(sid);
    }

    /** The claimed session; `locked` is the row the memo lookup returned. */
    method ClaimSession(op: Operation, now: int) returns (claimed: Option<SessionId>, ghost locked: Option<SessionId>)
      requires op.isPayment && op.memo != ""
      modifies db`sessions
      ensures IsFirstByMemo(old(db.State()), op.memo, locked)
      ensures claimed == if locked.Some? && MayClaim(old(db.State()), op, locked.value) then locked else None
      ensures claimed.Some? <==>
        && locked.Some? && locked.value in old(db.sessions) && old(db.sessions)[locked.value].status.Pending?
        && DetectorAccepts(op, old(db.sessions)[locked.value].terms) && (op.txHash, locked.value) !in old(db.payments)
      ensures db.State() == if claimed.Some? then Claim(old(db.State()), claimed.value, now) else old(db.State())
    {
      var first := LockByMemo(op.memo);
      locked := first;
      if first == None {
        return None, locked;
      }
      var sid := first.value;
      var session := db.sessions[sid];
      if session.status == Paid {
        return None, locked;
      }
      if session.status != Pending {
        return None, locked;
      }
      if !AreAmountsEqual(op.amount, session.terms.amount) {
        return None, locked;
      }
      if op.assetCode != Some(session.terms.assetCode) && session.terms.assetCode != NATIVE_ASSET {
        return None, locked;
      }
      if (op.txHash, sid) in db.payments {
        return None, locked;
      }
      db.UpdateStatus(sid, Processing, now);
      claimed := Some(sid);
    }

    /** Both phases. A claimed session ends paid, with a payment row and one confirmation, or, when the second
        transaction fails, is left processing for the recovery job; anything else changes nothing. */
    method ProcessPayment(op: Operation, commits: bool, now: int) returns (ghost locked: Option<SessionId>)
      modifies db
      ensures IsFirstByMemo(old(db.State()), op.memo, locked)
      ensures locked.Some? && MayClaim(old(db.State()), op, locked.value) && commits ==>
        && db.State() == Finalize(old(db.State()), locked.value, op, now)
        && db.confirmations == old(db.confirmations)
             + multiset{ConfirmationOf(locked.value, op, old(db.sessions[locked.value]).terms)}
      ensures locked.Some? && MayClaim(old(db.State()), op, locked.value) && !commits ==>
        db.State() == Claim(old(db.State()), locked.value, now) && db.confirmations == old(db.confirmations)
      ensures !(locked.Some? && MayClaim(old(db.State()), op, locked.value)) ==>
        db.State() == old(db.State()) && db.confirmations == old(db.confirmations)
    {
      hide AreAmountsEqual, IsFirstByMemo;
      if !op.isPayment || op.memo == "" {
        locked := FirstByMemo(db.State(), op.memo);
        return;
      }
      var claimed: Option<SessionId>;
      claimed, locked := ClaimSession(op, now);
      if claimed == None {
        return;
      }
      if !commits {
        return;
      }
      var sid := claimed.value;
      db.InsertPaymentAndMarkPaid(sid, op, now);
      var terms := db.sessions[sid].terms;
      var asset := match op.assetCode case None => NATIVE_ASSET case Some(code) => code;
      db.confirmations := db.confirmations
        + multiset{Confirmation(sid, terms.merchantId, op.txHash, op.amount, asset, op.sender)};
    }
  }

  class PaymentRecoveryService {
    const db: Database

    constructor (db: Database)
      ensures this.db == db
    {
      this.db := db;
    }

    method ReconcileStuckSession(sid: SessionId, h: Horizon, now: int)
      requires sid in db.sessions
      modifies db
      ensures db.State() == Settled(old(db.State()), h, now, sid)
      ensures var settled := Settlement(h, old(db.sessions[sid]).terms);
        db.confirmations == old(db.confirmations)
          + if settled.Some? then multiset{ConfirmationOf(sid, settled.value, old(db.sessions[sid]).terms)}
            else multiset{}
    {
      var terms := db.sessions[sid].terms;
      var found := FindMatch(RecordsOf(h, terms.receivingAccount), terms);
      if found == None || found.value.txHash !in h.successful {
        if db.sessions[sid].status == Processing {
          db.UpdateStatus(sid, Pending, now);
        }
        return;
      }
      var op := found.value;
      db.InsertPaymentAndMarkPaid(sid, op, now);
      var asset := match op.assetCode case None => NATIVE_ASSET case Some(code) => code;
      db.confirmations := db.confirmations
        + multiset{Confirmation(sid, terms.merchantId, op.txHash, op.amount, asset, op.sender)};
    }

    /** Rows come in whatever order the database lists them. */
    method RecoverStuckProcessing(h: Horizon, now: int)
      modifies db
      ensures AfterStuck(old(db.State()), h, now, StuckIds(old(db.State()), now), db.State())
      ensures forall sid :: sid in old(db.sessions) ==>
        && sid in db.sessions
        && (old(db.sessions)[sid].status.Processing? && old(db.sessions)[sid].statusChangedAt < now - 300_000 ==>
              db.sessions[sid].status == (if Settlement(h, old(db.sessions)[sid].terms).Some? then Paid else Pending))
        && (!old(db.sessions)[sid].status.Processing? || old(db.sessions)[sid].statusChangedAt >= now - 300_000 ==>
              db.sessions[sid] == old(db.sessions)[sid])
      ensures db.confirmations == old(db.confirmations)
        + multiset(SettledConfirmations(old(db.State()), h, StuckIds(old(db.State()), now)))
    {
      hide AfterStuck, Settled, SettledConfirmations, Settlement;
      ghost var start, sent, done := db.State(), db.confirmations, {};
      var todo := set sid | sid in db.sessions.Keys && IsStuck(db.sessions[sid], now);
      NothingSettledYet(start, h, now);
      while todo != {}
        invariant done <= start.sessions.Keys
        invariant forall sid :: sid in todo ==> sid in StuckIds(start, now) && sid !in done
        invariant forall sid :: sid in StuckIds(start, now) ==> sid in todo || sid in done
        invariant forall sid :: sid in done ==> sid in StuckIds(start, now)
        invariant AfterStuck(start, h, now, done, db.State())
        invariant db.confirmations == sent + multiset(SettledConfirmations(start, h, done))
        decreases todo
      {
        var sid :| sid in todo;
        SettleOneMore(start, h, now, done, sid, db.State());
        ConfirmOneMore(start, h, done, sid);
        ReconcileStuckSession(sid, h, now);
        todo := todo - {sid};
        done := done + {sid};
      }
      assert done == StuckIds(start, now);
      SettledByAge(start, h, now, db.State());
    }

    /** One row of the join per payment, so a session with several payments is confirmed several times. */
    method RecoverPendingWithPayments(now: int)
      modifies db`sessions, db`confirmations
      ensures AfterMarking(old(db.State()), now, SessionsOf(PaidPendingKeys(old(db.State()))), Paid, db.State())
      ensures db.confirmations == old(db.confirmations)
        + multiset(RepairedConfirmations(old(db.State()), PaidPendingKeys(old(db.State()))))
    {
      hide AfterMarking, RepairedConfirmations, SetStatus;
      ghost var start, sent, done := db.State(), db.confirmations, {};
      var todo := set k | k in db.payments.Keys && k.1 in db.sessions && db.sessions[k.1].status.Pending?;
      NothingMarkedYet(start, now, Paid);
      assert SessionsOf({}) == {};
      assert multiset(RepairedConfirmations(start, {})) == multiset{} by { NothingRepairedYet(start); }
      while todo != {}
        invariant forall k :: k in todo ==> k in PaidPendingKeys(start) && k !in done
        invariant forall k :: k in PaidPendingKeys(start) ==> k in todo || k in done
        invariant forall k :: k in done ==> k in PaidPendingKeys(start)
        invariant AfterMarking(start, now, SessionsOf(done), Paid, db.State())
        invariant db.confirmations == sent + multiset(RepairedConfirmations(start, done))
        decreases todo
      {
        var k :| k in todo;
        MarkPaidOneMore(start, now, done, k, db.State());
        RepairOneMore(start, done, k);
        var payment, terms := db.payments[k], db.sessions[k.1].terms;
        db.UpdateStatus(k.1, Paid, now);
        db.confirmations := db.confirmations
          + multiset{Confirmation(k.1, terms.merchantId, k.0, payment.amount, payment.assetCode, payment.sender)};
        todo := todo - {k};
        done := done + {k};
      }
      assert done == PaidPendingKeys(start);
    }

    method RecoverStuckPending(now: int)
      modifies db`sessions
      ensures AfterMarking(old(db.State()), now, StaleIds(old(db.State()), now), Expired, db.State())
    {
      hide AfterMarking, SetStatus;
      ghost var start, done := db.State(), {};
      var todo := set sid | sid in db.sessions.Keys && IsStale(db.sessions[sid], now);
      NothingMarkedYet(start, now, Expired);
      while todo != {}
        invariant forall sid :: sid in todo ==> sid in start.sessions
        invariant todo + done == StaleIds(start, now)
        invariant AfterMarking(start, now, done, Expired, db.State())
        invariant db.payments == start.payments
        decreases todo
      {
        var sid :| sid in todo;
        var paymentExists := exists k :: k in db.payments.Keys && k.1 == sid;
        assert paymentExists == HasPayment(start, sid);
        var status := if paymentExists then Paid else Expired;
        MarkOneMore(start, now, done, sid, Expired, db.State(), status);
        db.UpdateStatus(sid, status, now);
        todo := todo - {sid};
        done := done + {sid};
      }
      assert done == StaleIds(start, now);
    }

    /** The fourth pass only logs: the sessions it reports. */
    method RecoverPaidWithoutPayments() returns (orphans: set<SessionId>)
      ensures forall sid :: sid in orphans <==>
        sid in db.sessions && db.sessions[sid].status.Paid? && !HasPayment(db.State(), sid)
    {
      orphans := set sid | sid in db.sessions.Keys && db.sessions[sid].status.Paid? && !HasPayment(db.State(), sid);
    }

    /** One run; the tables between its passes are named to state what each did. */
    method RecoverStaleSessions(h: Horizon, now: int) returns (ghost db1: Tables, ghost db2: Tables)
      modifies db
      ensures IsPass(old(db.State()), h, now, db1, db2, db.State())
      ensures StuckIds(db.State(), now) == {} && StaleIds(db.State(), now) == {} && PaidPendingKeys(db.State()) == {}
      ensures forall sid :: sid in db.sessions && db.sessions[sid].status.Processing? ==>
        db.sessions[sid].statusChangedAt >= now - 300_000
      ensures forall sid ::
        (sid in old(db.sessions) && old(db.sessions)[sid].status.Processing?
         && old(db.sessions)[sid].statusChangedAt >= now - 300_000) ==>
          sid in db.sessions && db.sessions[sid] == old(db.sessions)[sid]
      ensures forall sid :: sid in old(db.sessions) && old(db.sessions)[sid].status.Pending? ==>
        && sid in db.sessions
        && db.sessions[sid] ==
          var before := old(db.sessions)[sid];
          if HasPayment(old(db.State()), sid) then Session(before.terms, Paid, now)
          else if before.terms.createdAt < now - 300_000 then Session(before.terms, Expired, now)
          else before
      ensures db.confirmations == old(db.confirmations)
        + multiset(SettledConfirmations(old(db.State()), h, StuckIds(old(db.State()), now)))
        + multiset(RepairedConfirmations(db1, PaidPendingKeys(db1)))
    {
      hide AfterStuck, AfterMarking, SettledConfirmations, RepairedConfirmations, StuckIds, StaleIds, PaidPendingKeys;
      ghost var start := db.State();
      RecoverStuckProcessing(h, now);
      db1 := db.State();
      RecoverPendingWithPayments(now);
      db2 := db.State();
      RecoverStuckPending(now);
      PassConverges(start, h, now, db1, db2, db.State());
      PassByAge(start, h, now, db1, db2, db.State());
      var orphans := RecoverPaidWithoutPayments();
    }
  }

  /** What the first pass does to each session, by its age. */
  lemma SettledByAge(db: Tables, h: Horizon, now: int, db1: Tables)
    requires AfterStuck(db, h, now, StuckIds(db, now), db1)
    ensures forall sid :: sid in db.sessions ==>
      && sid in db1.sessions
      && (db.sessions[sid].status.Processing? && db.sessions[sid].statusChangedAt < now - 300_000 ==>
            db1.sessions[sid].status == (if Settlement(h, db.sessions[sid].terms).Some? then Paid else Pending))
      && (!db.sessions[sid].status.Processing? || db.sessions[sid].statusChangedAt >= now - 300_000 ==>
            db1.sessions[sid] == db.sessions[sid])
  {
    hide Settlement;
  }

  /** What a run does to each session that processes or is pending, by its age. */
  lemma PassByAge(db: Tables, h: Horizon, now: int, db1: Tables, db2: Tables, db3: Tables)
    requires IsPass(db, h, now, db1, db2, db3)
    ensures forall sid ::
      (sid in db.sessions && db.sessions[sid].status.Processing? && db.sessions[sid].statusChangedAt >= now - 300_000)
        ==> sid in db3.sessions && db3.sessions[sid] == db.sessions[sid]
    ensures forall sid :: sid in db.sessions && db.sessions[sid].status.Pending? ==>
      && sid in db3.sessions
      && db3.sessions[sid] ==
        var before := db.sessions[sid];
        if HasPayment(db, sid) then Session(before.terms, Paid, now)
        else if before.terms.createdAt < now - 300_000 then Session(before.terms, Expired, now)
        else before
  {
    hide IsPass, HasPayment;
    forall sid | sid in db.sessions && db.sessions[sid].status.Processing?
      && db.sessions[sid].statusChangedAt >= now - 300_000
      ensures sid in db3.sessions && db3.sessions[sid] == db.sessions[sid]
    {
      PassLeavesTheRest(db, h, now, db1, db2, db3, sid);
    }
    forall sid | sid in db.sessions && db.sessions[sid].status.Pending?
      ensures sid in db3.sessions
      ensures db3.sessions[sid] ==
        var before := db.sessions[sid];
        if HasPayment(db, sid) then Session(before.terms, Paid, now)
        else if before.terms.createdAt < now - 300_000 then Session(before.terms, Expired, now)
        else before
    {
      PendingSessionsAreClosed(db, h, now, db1, db2, db3, sid);
    }
  }

  lemma NothingSettledYet(start: Tables, h: Horizon, now: int)
    ensures AfterStuck(start, h, now, {}, start)
    ensures multiset(SettledConfirmations(start, h, {})) == multiset{}
  {
    assert SettledConfirmations(start, h, {}) == {};
  }

  lemma NothingMarkedYet(start: Tables, now: int, otherwise: Status)
    ensures AfterMarking(start, now, {}, otherwise, start)
  {
  }

  lemma NothingRepairedYet(start: Tables)
    ensures RepairedConfirmations(start, {}) == {}
  {
  }

  lemma ConfirmOneMore(start: Tables, h: Horizon, done: set<SessionId>, sid: SessionId)
    requires done <= start.sessions.Keys && sid in start.sessions && sid !in done
    ensures var settled := Settlement(h, start.sessions[sid].terms);
      multiset(SettledConfirmations(start, h, done + {sid})) == multiset(SettledConfirmations(start, h, done))
        + if settled.Some? then multiset{ConfirmationOf(sid, settled.value, start.sessions[sid].terms)} else multiset{}
  {
    var settled := Settlement(h, start.sessions[sid].terms);
    if settled.Some? {
      assert SettledConfirmations(start, h, done + {sid})
          == SettledConfirmations(start, h, done) + {ConfirmationOf(sid, settled.value, start.sessions[sid].terms)};
    } else {
      assert SettledConfirmations(start, h, done + {sid}) == SettledConfirmations(start, h, done);
    }
  }

  lemma RepairOneMore(start: Tables, done: set<(TxHash, SessionId)>, k: (TxHash, SessionId))
    requires done <= PaidPendingKeys(start) && k in PaidPendingKeys(start) && k !in done
    ensures multiset(RepairedConfirmations(start, done + {k})) == multiset(RepairedConfirmations(start, done))
      + multiset{ConfirmationFrom(k, start.payments[k], start.sessions[k.1].terms)}
  {
    assert RepairedConfirmations(start, done + {k})
        == RepairedConfirmations(start, done) + {ConfirmationFrom(k, start.payments[k], start.sessions[k.1].terms)};
  }

  lemma MarkPaidOneMore(start: Tables, now: int, done: set<(TxHash, SessionId)>, k: (TxHash, SessionId), before: Tables)
    requires done <= PaidPendingKeys(start) && k in PaidPendingKeys(start)
    requires AfterMarking(start, now, SessionsOf(done), Paid, before)
    ensures k in before.payments && before.payments[k] == start.payments[k]
    ensures k.1 in before.sessions && before.sessions[k.1].terms == start.sessions[k.1].terms
    ensures AfterMarking(start, now, SessionsOf(done + {k}), Paid, SetStatus(before, k.1, Paid, now))
  {
    assert SessionsOf(done + {k}) == SessionsOf(done) + {k.1};
    MarkOneMore(start, now, SessionsOf(done), k.1, Paid, before, Paid);
  }
}
