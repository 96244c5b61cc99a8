/** The steps of the session protocol, taken one after the other without interference, are the calls of the services. */
module SessionCalls {
  import opened Options
  import opened CheckoutTables
  import opened PaymentRecovery
  import opened SessionProtocol

  // ---------------------------------------------------------------- checkout

  /** Showing a session expires it exactly when it is pending and past its expiry. */
  lemma ExpiryCall(w: World, sid: SessionId, t: nat)
    requires t !in w.tasks
    ensures (exists w1 :: Acts(w, ReadForExpiry(sid, t), w1)) <==>
      sid in w.db.sessions && w.db.sessions[sid].status.Pending? && w.clock > w.db.sessions[sid].terms.expiresAt
    ensures forall w1 :: Acts(w, ReadForExpiry(sid, t), w1) ==>
      && t in w1.tasks
      && var w2 := Continued(w1, t, NotFound);
        w2.tasks == w.tasks && w2.db == SetStatus(w.db, sid, Expired, w.clock)
  {
    var w1 := Start(w, t, Expiring(sid));
    assert w1.tasks - {t} == w.tasks;
    if sid in w.db.sessions && w.db.sessions[sid].status.Pending? && w.clock > w.db.sessions[sid].terms.expiresAt {
      assert Acts(w, ReadForExpiry(sid, t), w1);
    }
  }

  /** Cancelling succeeds exactly on a pending session of the merchant. */
  lemma CancelCall(w: World, sid: SessionId, merchantId: MerchantId, t: nat)
    requires t !in w.tasks
    ensures (exists w1 :: Acts(w, ReadForCancel(sid, merchantId, t), w1)) <==>
      sid in w.db.sessions && w.db.sessions[sid].status.Pending? && w.db.sessions[sid].terms.merchantId == merchantId
    ensures forall w1 :: Acts(w, ReadForCancel(sid, merchantId, t), w1) ==>
      && t in w1.tasks
      && var w2 := Continued(w1, t, NotFound);
        w2.tasks == w.tasks && w2.db == SetStatus(w.db, sid, Cancelled, w.clock)
  {
    var w1 := Start(w, t, Cancelling(sid));
    assert w1.tasks - {t} == w.tasks;
    if sid in w.db.sessions && w.db.sessions[sid].status.Pending? && w.db.sessions[sid].terms.merchantId == merchantId {
      assert Acts(w, ReadForCancel(sid, merchantId, t), w1);
    }
  }

  // ---------------------------------------------------------------- detector

  /** A payment is claimed exactly when the session may be, then finalized, then announced once. */
  lemma PaymentCall(w: World, sid: SessionId, op: Operation, t: nat)
    requires t !in w.tasks
    ensures (exists w1 :: Acts(w, ClaimFor(sid, op, t), w1)) <==> MayClaim(w.db, op, sid)
    ensures forall w1 :: Acts(w, ClaimFor(sid, op, t), w1) ==>
      && t in w1.tasks && w1.db == Claim(w.db, sid, w.clock)
      && var w2 := Continued(w1, t, NotFound);
        && t in w2.tasks && w2.db == Finalize(w.db, sid, op, w.clock)
        && var w3 := Continued(w2, t, NotFound);
          w3.tasks == w.tasks && w3.db == w2.db && w3.announced == w.announced + multiset{sid}
  {
    hide DetectorAccepts;
    if MayClaim(w.db, op, sid) {
      var w1 := Start(w, t, Finalizing(sid, op)).(db := Claim(w.db, sid, w.clock), seen := w.seen + {op},
        claims := w.claims + multiset{sid});
      assert Acts(w, ClaimFor(sid, op, t), w1);
      ClaimThenFinalize(w.db, sid, op, w.clock);
    }
    assert w.tasks[t := Finalizing(sid, op)][t := Announcing(sid)] - {t} == w.tasks;
  }

  lemma ClaimThenFinalize(db: Tables, sid: SessionId, op: Operation, now: int)
    requires sid in db.sessions
    ensures Finalize(Claim(db, sid, now), sid, op, now) == Finalize(db, sid, op, now)
  {
  }

  // ---------------------------------------------------------------- recovery

  /** What Horizon answers to the lookup of a stuck session. */
  function Looked(h: Horizon, terms: Terms): Lookup {
    match FindMatch(RecordsOf(h, terms.receivingAccount), terms)
    case None => NotFound
    case Some(op) => if op.txHash in h.successful then Confirmed(op) else Unsuccessful(op)
  }

  /** A session is taken up exactly when it has been processing for more than five minutes, and then settled as the
      recovery pass settles it. */
  lemma StuckCall(w: World, sid: SessionId, t: nat, h: Horizon)
    requires t !in w.tasks
    ensures (exists w1 :: Acts(w, SelectStuck(sid, t), w1)) <==>
      && sid in w.db.sessions && w.db.sessions[sid].status.Processing?
      && w.db.sessions[sid].statusChangedAt < w.clock - 300_000
    ensures forall w1 :: Acts(w, SelectStuck(sid, t), w1) ==>
      && t in w1.tasks && sid in w.db.sessions && Answers(Looked(h, w.db.sessions[sid].terms), w.db.sessions[sid].terms)
      && var w2 := Continued(w1, t, Looked(h, w.db.sessions[sid].terms));
        && t in w2.tasks
        && var w3 := Continued(w2, t, NotFound);
          w3.tasks == w.tasks && w3.db == Settled(w.db, h, w.clock, sid)
  {
    hide RecoveryAccepts;
    if sid in w.db.sessions {
      var w1 := Start(w, t, Reconciling(sid, w.db.sessions[sid].terms));
      if w.db.sessions[sid].status.Processing? && w.db.sessions[sid].statusChangedAt < w.clock - 300_000 {
        assert Acts(w, SelectStuck(sid, t), w1);
      }
      var w2 := Continued(w1, t, Looked(h, w.db.sessions[sid].terms));
      assert w2.tasks - {t} == w.tasks;
    }
  }

  /** The second pass takes up exactly the pending sessions with a payment. */
  lemma RepairCall(w: World, sid: SessionId, t: nat)
    requires t !in w.tasks
    ensures (exists w1 :: Acts(w, SelectPaidPending(sid, t), w1)) <==>
      sid in w.db.sessions && w.db.sessions[sid].status.Pending? && HasPayment(w.db, sid)
    ensures forall w1 :: Acts(w, SelectPaidPending(sid, t), w1) ==>
      && t in w1.tasks
      && var w2 := Continued(w1, t, NotFound); w2.tasks == w.tasks && w2.db == SetStatus(w.db, sid, Paid, w.clock)
  {
    hide HasPayment;
    var w1 := Start(w, t, Repairing(sid));
    assert w1.tasks - {t} == w.tasks;
    if sid in w.db.sessions && w.db.sessions[sid].status.Pending? && HasPayment(w.db, sid) {
      assert Acts(w, SelectPaidPending(sid, t), w1);
    }
  }

  /** The third pass takes up exactly the pending sessions created more than five minutes ago. */
  lemma StaleCall(w: World, sid: SessionId, t: nat)
    requires t !in w.tasks
    ensures (exists w1 :: Acts(w, SelectStalePending(sid, t), w1)) <==>
      && sid in w.db.sessions && w.db.sessions[sid].status.Pending?
      && w.db.sessions[sid].terms.createdAt < w.clock - 300_000
    ensures forall w1 :: Acts(w, SelectStalePending(sid, t), w1) ==>
      && t in w1.tasks
      && var w2 := Continued(w1, t, NotFound);
        && t in w2.tasks
        && var w3 := Continued(w2, t, NotFound);
          && w3.tasks == w.tasks
          && w3.db == SetStatus(w.db, sid, if HasPayment(w.db, sid) then Paid else Expired, w.clock)
  {
    hide HasPayment;
    var w1 := Start(w, t, Inspecting(sid));
    assert Continued(w1, t, NotFound).tasks - {t} == w.tasks;
    if sid in w.db.sessions && w.db.sessions[sid].status.Pending?
      && w.db.sessions[sid].terms.createdAt < w.clock - 300_000 {
      assert Acts(w, SelectStalePending(sid, t), w1);
    }
  }
}
