/** One detector instance working through pages on its own (src/payments/payment-detector.service.ts:83-111). */
module PaymentPolling {
  import opened Options
  import opened PaymentCursor

  /** A record of a page; an empty token stands for a missing one. */
  datatype Record = Record(id: nat, pagingToken: Token)

  /** The instance's fields, the two Redis keys, and the records `processPayment` has returned from. */
  datatype Poll = Poll(cursor: Token, opsSinceFlush: nat, stored: Option<Token>, checkpoints: seq<Token>,
    processed: seq<nat>)

  function AfterRecord(s: Poll, r: Record): Poll {
    var processed := s.processed + [r.id];
    if r.pagingToken == "" then s.(processed := processed)
    else
      var flush := s.opsSinceFlush + 1 >= PERSIST_EVERY;
      Poll(r.pagingToken, if flush then 0 else s.opsSinceFlush + 1,
           if flush then Swapped(s.stored, s.cursor, r.pagingToken) else s.stored,
           Trimmed([r.pagingToken] + s.checkpoints), processed)
  }

  function AfterRecords(s: Poll, records: seq<Record>): Poll {
    if records == [] then s
    else AfterRecord(AfterRecords(s, records[..|records| - 1]), records[|records| - 1])
  }

  class PaymentPoller {
    const cursorService: PaymentCursorService
    var cursor: Token
    var opsSinceFlush: nat
    var processed: seq<nat>

    /** `onModuleInit` */
    constructor (cursorService: PaymentCursorService)
      ensures this.cursorService == cursorService
      ensures State() == Poll(RestoredCursor(cursorService.cursor, Latest(cursorService.checkpoints)), 0,
                              cursorService.cursor, cursorService.checkpoints, [])
    {
      this.cursorService := cursorService;
      opsSinceFlush, processed := 0, [];
      cursor := NOW;
      new;
      cursor := cursorService.RestoreCursor();
    }

    function State(): Poll
      reads this, cursorService
    {
      Poll(cursor, opsSinceFlush, cursorService.cursor, cursorService.checkpoints, processed)
    }

    method ProcessPage(records: seq<Record>)
      modifies this, cursorService
      ensures State() == AfterRecords(old(State()), records)
    {
      ghost var start := State();
      var i := 0;
      while i < |records|
        invariant 0 <= i <= |records|
        invariant State() == AfterRecords(start, records[..i])
      {
        ghost var before := State();
        var op := records[i];
        processed := processed + [op.id];
        if op.pagingToken != "" {
          var prev := cursor;
          cursor := op.pagingToken;
          opsSinceFlush := opsSinceFlush + 1;
          cursorService.AppendCheckpoint(op.pagingToken);
          if opsSinceFlush >= PERSIST_EVERY {
            var updated := cursorService.UpdateCursor(prev, cursor);
            opsSinceFlush := 0;
          }
        }
        assert State() == AfterRecord(before, op);
        assert records[..i + 1][..i] == records[..i];
        i := i + 1;
      }
      assert records[..i] == records;
    }
  }

  // ---------------------------------------------------------------- what is processed and remembered

  /** Every record is processed once, in the order of the pages, with or without a token; a token moves the cursor to
      it, and a record without one leaves it. */
  lemma {:induction false} EveryRecordIsProcessed(s: Poll, records: seq<Record>)
    ensures var s' := AfterRecords(s, records);
      && |s'.processed| == |s.processed| + |records| && s'.processed[..|s.processed|] == s.processed
      && (forall i :: 0 <= i < |records| ==> s'.processed[|s.processed| + i] == records[i].id)
    ensures var s' := AfterRecords(s, records);
      if records == [] then s' == s
      else
        var last, before := records[|records| - 1], AfterRecords(s, records[..|records| - 1]);
        && (last.pagingToken != "" ==> s'.cursor == last.pagingToken)
        && (last.pagingToken == "" ==> s' == before.(processed := s'.processed))
  {
    if records != [] {
      EveryRecordIsProcessed(s, records[..|records| - 1]);
    }
  }

  /** The checkpoints of an instance that found none are the last fifty tokens, the newest first. */
  lemma {:induction false} CheckpointsAreTheLastFifty(s: Poll, records: seq<Record>)
    requires s.checkpoints == [] && forall i :: 0 <= i < |records| ==> records[i].pagingToken != ""
    ensures var checkpoints := AfterRecords(s, records).checkpoints;
      && |checkpoints| == (if |records| < 50 then |records| else 50)
      && forall i :: 0 <= i < |checkpoints| ==> checkpoints[i] == records[|records| - 1 - i].pagingToken
  {
    hide AfterRecord;
    if records != [] {
      var n := |records| - 1;
      CheckpointsAreTheLastFifty(s, records[..n]);
      NewestIsFirst(AfterRecords(s, records[..n]), records[n]);
    }
  }

  lemma NewestIsFirst(s: Poll, r: Record)
    requires r.pagingToken != ""
    ensures AfterRecord(s, r).checkpoints == Trimmed([r.pagingToken] + s.checkpoints)
  {
  }

  // ---------------------------------------------------------------- how far the stored cursor lags

  /** Records as Horizon lists them: numeric tokens, each ahead of the one before. */
  predicate Ascending(records: seq<Record>) {
    && (forall i :: 0 <= i < |records| ==> IsNumeric(records[i].pagingToken))
    && (forall i, j :: 0 <= i < j < |records| ==> IsAhead(records[j].pagingToken, records[i].pagingToken))
  }

  /** Pages of any size amount to one long page. */
  lemma {:induction false} PagesJoin(s: Poll, first: seq<Record>, second: seq<Record>)
    ensures AfterRecords(AfterRecords(s, first), second) == AfterRecords(s, first + second)
    decreases |second|
  {
    if second == [] {
      assert first + second == first;
    } else {
      var n := |second| - 1;
      PagesJoin(s, first, second[..n]);
      assert (first + second)[..|first| + n] == first + second[..n];
    }
  }

  /** Once the stored cursor is the instance's own, it never moves again: the token before the next flush is not the one
      stored. */
  lemma {:induction false} StoredCursorStands(s: Poll, records: seq<Record>)
    requires s.stored == Some(s.cursor) && s.opsSinceFlush == 0
    requires Ascending(records) && forall i :: 0 <= i < |records| ==> IsAhead(records[i].pagingToken, s.cursor)
    ensures var s' := AfterRecords(s, records);
      && s'.stored == s.stored
      && s'.cursor == (if records == [] then s.cursor else records[|records| - 1].pagingToken)
      && (records == [] ==> s'.opsSinceFlush == 0)
  {
    if records != [] {
      var n := |records| - 1;
      StoredCursorStands(s, records[..n]);
      if n > 0 {
        assert IsAhead(records[n - 1].pagingToken, s.cursor);
      }
    }
  }

  lemma {:induction false} NothingStoredBeforeTheTenth(s: Poll, records: seq<Record>)
    requires s.stored == None && s.opsSinceFlush == 0 && Ascending(records) && |records| < PERSIST_EVERY
    ensures AfterRecords(s, records).stored == None && AfterRecords(s, records).opsSinceFlush == |records|
  {
    if records != [] {
      NothingStoredBeforeTheTenth(s, records[..|records| - 1]);
    }
  }

  /** What an instance that started with nothing stored leaves in the cursor key after any number of records: the token
      of the tenth, however many follow. A flush that took the last persisted token as expected value would have moved
      it on. */
  lemma StoredCursorFreezes(s: Poll, records: seq<Record>)
    requires s.stored == None && s.opsSinceFlush == 0 && Ascending(records)
    ensures AfterRecords(s, records).stored == if |records| < 10 then None else Some(records[9].pagingToken)
  {
    if |records| < PERSIST_EVERY {
      NothingStoredBeforeTheTenth(s, records);
    } else {
      var k := PERSIST_EVERY - 1;
      var first, rest := records[..k + 1], records[k + 1..];
      NothingStoredBeforeTheTenth(s, records[..k]);
      assert first[..k] == records[..k] && records == first + rest;
      StoredCursorStands(AfterRecords(s, first), rest);
      PagesJoin(s, first, rest);
    }
  }

  /** So a restart resumes from the tenth record too, and works through the rest again. */
  lemma RestartReplaysFromTheTenth(s: Poll, records: seq<Record>)
    requires s.stored == None && s.opsSinceFlush == 0 && s.checkpoints == [] && Ascending(records)
      && |records| >= 10
    ensures var s' := AfterRecords(s, records);
      RestoredCursor(s'.stored, Latest(s'.checkpoints)) == records[9].pagingToken
  {
    StoredCursorFreezes(s, records);
    NewestCheckpoint(s, records);
  }

  lemma NewestCheckpoint(s: Poll, records: seq<Record>)
    requires records != [] && IsNumeric(records[|records| - 1].pagingToken)
    ensures Latest(AfterRecords(s, records).checkpoints) == Some(records[|records| - 1].pagingToken)
  {
  }
}
