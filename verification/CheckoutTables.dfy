/** Checkout sessions and payments, and the single database statements on them (src/db/schema.ts, src/payments,
    src/checkout). */
module CheckoutTables {
  import opened Options
  import opened AmountUtils

  /** UUIDs and transaction hashes are compared only for equality. */
  type SessionId = nat
  type MerchantId = nat
  type TxHash = nat

  datatype Status = Pending | Processing | Paid | Expired | Cancelled

  /** What is agreed when the session is created; no statement changes it. */
  datatype Terms = Terms(
    merchantId: MerchantId, amount: string, assetCode: string, assetIssuer: Option<string>, receivingAccount: string,
    memo: Option<string>, expiresAt: int, createdAt: int)

  datatype Session = Session(terms: Terms, status: Status, statusChangedAt: int)

  /** A payment operation as Horizon reports it; the empty memo stands for a missing one. */
  datatype Operation = Operation(
    isPayment: bool, memo: string, txHash: TxHash, amount: string, assetCode: Option<string>,
      assetIssuer: Option<string>, sender: string)

  datatype Payment = Payment(
    merchantId: MerchantId, amount: string, assetCode: string, assetIssuer: Option<string>, sender: string,
      confirmedAt: int)

  /** The pair (transaction, session) is unique among payments. */
  datatype Tables = Tables(sessions: map<SessionId, Session>, payments: map<(TxHash, SessionId), Payment>)

  const NATIVE_ASSET := "XLM"
  const STALE_MS: int := 5 * 60 * 1000

  // ---------------------------------------------------------------- acceptance

  /** The detector's tests, in the order it makes them. */
  predicate DetectorAccepts(op: Operation, terms: Terms) {
    && op.isPayment
    && op.memo != ""
    && terms.memo == Some(op.memo)
    && AreAmountsEqual(op.amount, terms.amount)
    && !(op.assetCode != Some(terms.assetCode) && terms.assetCode != NATIVE_ASSET)
  }

  /** The recovery job's search predicate, applied only when the session has a memo. */
  predicate RecoveryAccepts(op: Operation, terms: Terms) {
    && terms.memo.Some? && terms.memo.value != ""
    && op.isPayment
    && op.memo == terms.memo.value
    && AreAmountsEqual(op.amount, terms.amount)
    && (op.assetCode == Some(terms.assetCode) || terms.assetCode == NATIVE_ASSET)
  }

  /** Whichever finds a payment first, they agree on what pays for a session. */
  lemma SameAcceptance(op: Operation, terms: Terms)
    ensures DetectorAccepts(op, terms) <==> RecoveryAccepts(op, terms)
  {
    if RecoveryAccepts(op, terms) {
      assert terms.memo == Some(terms.memo.value);
    }
  }

  /** What is accepted for a session, with amounts of at most seven decimals: a payment with its memo, of an amount of
      the same value, in its asset; a session in the native asset takes any. */
  lemma AcceptedMeans(op: Operation, terms: Terms, paid: Numeral, asked: Numeral)
    requires paid.Valid() && asked.Valid() && op.amount == paid.Text() && terms.amount == asked.Text()
    requires paid.Places() <= 7 && asked.Places() <= 7
    ensures DetectorAccepts(op, terms) <==>
      && op.isPayment && op.memo != "" && terms.memo == Some(op.memo) && SameValue(paid, asked)
      && (terms.assetCode == "XLM" || op.assetCode == Some(terms.assetCode))
  {
    hide AreAmountsEqual, SameValue;
    EqualityIsExact(paid, asked, 7);
  }

  // ---------------------------------------------------------------- statements

  predicate HasPayment(db: Tables, sid: SessionId) {
    exists k :: k in db.payments.Keys && k.1 == sid
  }

  function PaymentOf(op: Operation, terms: Terms, now: int): Payment {
    var assetCode := match op.assetCode case None => NATIVE_ASSET case Some(code) => code;
    Payment(terms.merchantId, op.amount, assetCode, op.assetIssuer, op.sender, now)
  }

  /** What a payment row records of an operation. */
  lemma PaymentTells(op: Operation, terms: Terms, now: int)
    ensures var payment := PaymentOf(op, terms, now);
      && payment.merchantId == terms.merchantId && payment.amount == op.amount && payment.sender == op.sender
      && payment.assetCode == (if op.assetCode == None then "XLM" else op.assetCode.value)
      && payment.assetIssuer == op.assetIssuer && payment.confirmedAt == now
  {
  }

  function SetStatus(db: Tables, sid: SessionId, status: Status, now: int): Tables {
    if sid !in db.sessions then db
    else db.(sessions := db.sessions[sid := db.sessions[sid].(status := status, statusChangedAt := now)])
  }

  /** `INSERT ... ON CONFLICT DO NOTHING` on (transaction, session). */
  function InsertPayment(db: Tables, sid: SessionId, op: Operation, terms: Terms, now: int): Tables {
    if (op.txHash, sid) in db.payments then db
    else db.(payments := db.payments[(op.txHash, sid) := PaymentOf(op, terms, now)])
  }

  predicate MayClaim(db: Tables, op: Operation, sid: SessionId) {
    && sid in db.sessions && db.sessions[sid].status.Pending?
    && DetectorAccepts(op, db.sessions[sid].terms)
    && (op.txHash, sid) !in db.payments
  }

  function Claim(db: Tables, sid: SessionId, now: int): Tables {
    SetStatus(db, sid, Processing, now)
  }

  /** The second transaction: the payment row and the paid status together. */
  function Finalize(db: Tables, sid: SessionId, op: Operation, now: int): Tables {
    if sid !in db.sessions then db
    else SetStatus(InsertPayment(db, sid, op, db.sessions[sid].terms, now), sid, Paid, now)
  }

  predicate IsProcessing(db: Tables, sid: SessionId) {
    sid in db.sessions && db.sessions[sid].status.Processing?
  }

  /** `UPDATE ... WHERE status = 'processing'`. */
  function Revert(db: Tables, sid: SessionId, now: int): Tables {
    if IsProcessing(db, sid) then SetStatus(db, sid, Pending, now) else db
  }

  function NewSession(terms: Terms, now: int): Session {
    Session(terms.(createdAt := now), Pending, now)
  }
}
