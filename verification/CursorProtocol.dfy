/** The cursor and checkpoint keys under any number of detector instances, every Redis command a step of its own.
    Nothing is assumed of the lock: any instance may poll at any time, throw, or die, and Redis may lose either key. */
module CursorProtocol {
  import opened Options
  import opened AmountUtils
  import opened PaymentCursor
  import PaymentPolling

  type InstanceId = nat

  /** Where an instance is in its loop. A page is the operations first..end of the history. */
  datatype Pc =
    | Idle
    | Restoring(stored: Token)
    | AtRecord(k: nat, end: nat)
    | Pushing(k: nat, end: nat, prev: Token)
    | Trimming(k: nat, end: nat, prev: Token)
    | Flushing(k: nat, end: nat, prev: Token)

  datatype Instance = Instance(cursor: Token, opsSinceFlush: nat, pc: Pc)

  /** The paging tokens of the account's operations so far; which operations `processPayment` has returned from on some
      instance; the two keys; and the running instances. */
  datatype World = World(
    history: seq<Token>, processed: set<nat>, stored: Option<Token>, checkpoints: seq<Token>,
      instances: map<InstanceId, Instance>)

  datatype Step =
    | Happen(token: Token)
    | ReadCursor(a: InstanceId)
    | ReadCheckpoint(a: InstanceId)
    | Fetch(a: InstanceId, first: nat, end: nat)
    | Process(a: InstanceId)
    | Push(a: InstanceId)
    | Trim(a: InstanceId)
    | Flush(a: InstanceId, replyLost: bool)
    | EndPage(a: InstanceId)
    | Throw(a: InstanceId)
    | Die(a: InstanceId)
    | LoseCursor
    | LoseCheckpoints

  const PAGE_LIMIT: nat := 50

  ghost predicate Ascending(history: seq<Token>) {
    && (forall i :: 0 <= i < |history| ==> IsNumeric(history[i]))
    && (forall i, j :: 0 <= i < j < |history| ==> IsAhead(history[j], history[i]))
  }

  /** Horizon's page contract: the operations after the cursor, where `now` sends no cursor and so means all of them. */
  ghost predicate StartsAt(history: seq<Token>, cursor: Token, first: nat) {
    && first <= |history|
    && (cursor == NOW ==> first == 0)
    && (cursor != NOW ==>
          && (forall i :: 0 <= i < first ==> !IsAhead(history[i], cursor))
          && (forall i :: first <= i < |history| ==> IsAhead(history[i], cursor)))
  }

  function InitialWorld(): World {
    World([], {}, None, [], map[])
  }

  function Set(w: World, a: InstanceId, inst: Instance): World {
    w.(instances := w.instances[a := inst])
  }

  function Move(w: World, a: InstanceId, pc: Pc): World
    requires a in w.instances
  {
    Set(w, a, w.instances[a].(pc := pc))
  }

  predicate At(w: World, a: InstanceId) {
    a in w.instances
  }

  ghost predicate Next(w: World, step: Step, w': World) {
    match step
    case Happen(token) => Ascending(w.history + [token]) && w' == w.(history := w.history + [token])
    case ReadCursor(a) =>
      && a !in w.instances
      && w' == Set(w, a, if w.stored == None then Instance(NOW, 0, Idle)
           else Instance(NOW, 0, Restoring(w.stored.value)))
    case ReadCheckpoint(a) =>
      && At(w, a) && w.instances[a].pc.Restoring?
      && w' == Set(w, a, Instance(RestoredCursor(Some(w.instances[a].pc.stored), Latest(w.checkpoints)), 0, Idle))
    case Fetch(a, first, end) =>
      && At(w, a) && w.instances[a].pc.Idle?
      && StartsAt(w.history, w.instances[a].cursor, first) && first <= end <= |w.history| && end - first <= PAGE_LIMIT
      && w' == Move(w, a, AtRecord(first, end))
    case Process(a) =>
      && At(w, a) && w.instances[a].pc.AtRecord? && w.instances[a].pc.k < w.instances[a].pc.end <= |w.history|
      && w' == Processed(w, a)
    case Push(a) =>
      && At(w, a) && w.instances[a].pc.Pushing?
      && w' == Pushed(w, a)
    case Trim(a) =>
      && At(w, a) && w.instances[a].pc.Trimming?
      && w' == TrimmedBy(w, a)
    case Flush(a, replyLost) =>
      && At(w, a) && w.instances[a].pc.Flushing?
      && w' == Flushed(w, a, replyLost)
    case EndPage(a) =>
      && At(w, a) && w.instances[a].pc.AtRecord? && w.instances[a].pc.k == w.instances[a].pc.end
      && w' == Move(w, a, Idle)
    case Throw(a) => At(w, a) && !w.instances[a].pc.Restoring? && w' == Move(w, a, Idle)
    case Die(a) => At(w, a) && w' == w.(instances := w.instances - {a})
    case LoseCursor => w' == w.(stored := None)
    case LoseCheckpoints => w' == w.(checkpoints := [])
  }

  /** `processPayment` has returned and the cursor moves to the record. */
  function Processed(w: World, a: InstanceId): World
    requires At(w, a) && w.instances[a].pc.AtRecord? && w.instances[a].pc.k < |w.history|
  {
    var inst := w.instances[a];
    var k := inst.pc.k;
    Set(w, a, Instance(w.history[k], inst.opsSinceFlush + 1,
      Pushing(k, inst.pc.end, inst.cursor))).(processed := w.processed + {k})
  }

  function Pushed(w: World, a: InstanceId): World
    requires At(w, a) && w.instances[a].pc.Pushing?
  {
    var inst := w.instances[a];
    Move(w, a, Trimming(inst.pc.k, inst.pc.end, inst.pc.prev)).(checkpoints := [inst.cursor] + w.checkpoints)
  }

  function TrimmedBy(w: World, a: InstanceId): World
    requires At(w, a) && w.instances[a].pc.Trimming?
  {
    var inst := w.instances[a];
    Move(w, a, if inst.opsSinceFlush >= PERSIST_EVERY then Flushing(inst.pc.k, inst.pc.end, inst.pc.prev)
               else AtRecord(inst.pc.k + 1, inst.pc.end)).(checkpoints := Trimmed(w.checkpoints))
  }

  /** When the script ran but its reply never came, the call throws. */
  function Flushed(w: World, a: InstanceId, replyLost: bool): World
    requires At(w, a) && w.instances[a].pc.Flushing?
  {
    var inst := w.instances[a];
    var inst' := if replyLost then inst.(pc := Idle)
      else inst.(opsSinceFlush := 0, pc := AtRecord(inst.pc.k + 1, inst.pc.end));
    Set(w, a, inst').(stored := Swapped(w.stored, inst.pc.prev, inst.cursor))
  }

  ghost predicate IsRun(ws: seq<World>, steps: seq<Step>) {
    && |ws| == |steps| + 1
    && ws[0] == InitialWorld()
    && forall i :: 0 <= i < |steps| ==> Next(ws[i], steps[i], ws[i + 1])
  }

  /** The commands of one uninterrupted record are the loop body of the polling method. */
  lemma CommandsMakeRecord(w: World, a: InstanceId, processed: seq<nat>)
    requires At(w, a) && w.instances[a].pc.AtRecord? && w.instances[a].pc.k < w.instances[a].pc.end <= |w.history|
    requires w.history[w.instances[a].pc.k] != ""
    ensures var inst := w.instances[a];
      var w3 := TrimmedBy(Pushed(Processed(w, a), a), a);
      var w4 := if w3.instances[a].pc.Flushing? then Flushed(w3, a, false) else w3;
      var r := PaymentPolling.Record(inst.pc.k, w.history[inst.pc.k]);
      var s := PaymentPolling.Poll(inst.cursor, inst.opsSinceFlush, w.stored, w.checkpoints, processed);
      && w4.instances[a].pc == AtRecord(inst.pc.k + 1, inst.pc.end)
      && PaymentPolling.AfterRecord(s, r)
           == PaymentPolling.Poll(w4.instances[a].cursor, w4.instances[a].opsSinceFlush, w4.stored, w4.checkpoints,
             processed + [inst.pc.k])
  {
  }

  // ---------------------------------------------------------------- safe tokens

  /** The token before operation k: a cursor with this value has operation k next. */
  predicate Precedes(history: seq<Token>, t: Token, k: nat) {
    k <= |history| && t == if k == 0 then NOW else history[k - 1]
  }

  ghost predicate AllBefore(processed: set<nat>, k: nat) {
    forall i :: 0 <= i < k ==> i in processed
  }

  /** Every operation at or before the token has been processed by some instance. */
  ghost predicate Safe(history: seq<Token>, processed: set<nat>, t: Token) {
    exists k: nat :: Precedes(history, t, k) && AllBefore(processed, k)
  }

  ghost predicate InstanceSafe(history: seq<Token>, processed: set<nat>, inst: Instance) {
    && Safe(history, processed, inst.cursor)
    && match inst.pc
       case Idle => true
       case Restoring(stored) => Safe(history, processed, stored)
       case AtRecord(k, end) => k <= end <= |history| && Precedes(history, inst.cursor, k) && AllBefore(processed, k)
       case Pushing(k, end, prev) => Past(history, processed, inst.cursor, k, end, prev)
       case Trimming(k, end, prev) => Past(history, processed, inst.cursor, k, end, prev)
       case Flushing(k, end, prev) => Past(history, processed, inst.cursor, k, end, prev)
  }

  /** Operation k has been processed and the cursor moved over it. */
  ghost predicate Past(history: seq<Token>, processed: set<nat>, cursor: Token, k: nat, end: nat, prev: Token) {
    k < end <= |history| && Precedes(history, cursor, k + 1) && Precedes(history, prev, k)
      && AllBefore(processed, k + 1)
  }

  ghost predicate InstancesSafe(history: seq<Token>, processed: set<nat>, instances: map<InstanceId, Instance>) {
    forall a :: a in instances ==> InstanceSafe(history, processed, instances[a])
  }

  ghost predicate KeysSafe(history: seq<Token>, processed: set<nat>, stored: Option<Token>, checkpoints: seq<Token>) {
    && (stored.Some? ==> Safe(history, processed, stored.value) && stored.value != NOW)
    && forall c :: c in checkpoints ==> Safe(history, processed, c)
  }

  ghost predicate Inv(w: World) {
    && Ascending(w.history)
    && KeysSafe(w.history, w.processed, w.stored, w.checkpoints)
    && InstancesSafe(w.history, w.processed, w.instances)
  }

  // ---------------------------------------------------------------- safety only grows

  ghost predicate Grows(history: seq<Token>, processed: set<nat>, history': seq<Token>, processed': set<nat>) {
    && |history| <= |history'| && (forall i :: 0 <= i < |history| ==> history'[i] == history[i])
    && processed <= processed'
  }

  lemma SafeGrows(history: seq<Token>, processed: set<nat>, history': seq<Token>, processed': set<nat>, t: Token)
    requires Grows(history, processed, history', processed') && Safe(history, processed, t)
    ensures Safe(history', processed', t)
  {
    var k: nat :| Precedes(history, t, k) && AllBefore(processed, k);
    assert Precedes(history', t, k) && AllBefore(processed', k);
  }

  lemma InstanceSafeGrows(history: seq<Token>, processed: set<nat>, history': seq<Token>, processed': set<nat>,
        inst: Instance)
    requires Grows(history, processed, history', processed') && InstanceSafe(history, processed, inst)
    ensures InstanceSafe(history', processed', inst)
  {
    SafeGrows(history, processed, history', processed', inst.cursor);
    if inst.pc.Restoring? {
      SafeGrows(history, processed, history', processed', inst.pc.stored);
    }
  }

  lemma InstancesSafeGrow(
      history: seq<Token>, processed: set<nat>, history': seq<Token>, processed': set<nat>,
        instances: map<InstanceId, Instance>)
    requires Grows(history, processed, history', processed') && InstancesSafe(history, processed, instances)
    ensures InstancesSafe(history', processed', instances)
  {
    forall a | a in instances ensures InstanceSafe(history', processed', instances[a]) {
      InstanceSafeGrows(history, processed, history', processed', instances[a]);
    }
  }

  lemma KeysSafeGrow(
      history: seq<Token>, processed: set<nat>, history': seq<Token>, processed': set<nat>, stored: Option<Token>,
        checkpoints: seq<Token>)
    requires Grows(history, processed, history', processed') && KeysSafe(history, processed, stored, checkpoints)
    ensures KeysSafe(history', processed', stored, checkpoints)
  {
    if stored.Some? {
      SafeGrows(history, processed, history', processed', stored.value);
    }
    forall c | c in checkpoints ensures Safe(history', processed', c) {
      SafeGrows(history, processed, history', processed', c);
    }
  }

  lemma SetKeepsSafe(history: seq<Token>, processed: set<nat>, instances: map<InstanceId, Instance>, a: InstanceId,
        inst: Instance)
    requires InstancesSafe(history, processed, instances) && InstanceSafe(history, processed, inst)
    ensures InstancesSafe(history, processed, instances[a := inst])
  {
  }

  // ---------------------------------------------------------------- where a page starts

  /** From a safe cursor a page starts right after the last operation known processed. */
  lemma SafeStart(history: seq<Token>, processed: set<nat>, cursor: Token, first: nat)
    requires Ascending(history) && Safe(history, processed, cursor) && StartsAt(history, cursor, first)
    ensures Precedes(history, cursor, first) && AllBefore(processed, first)
  {
    var k: nat :| Precedes(history, cursor, k) && AllBefore(processed, k);
    if k > 0 {
      assert IsNumeric(history[k - 1]);
      NowIsNoNumber(cursor);
      assert !IsAhead(history[k - 1], cursor);
      assert k < |history| ==> IsAhead(history[k], cursor);
    }
  }

  lemma NowIsNoNumber(t: Token)
    ensures IsNumeric(t) ==> t != NOW
  {
    assert !IsDigit(NOW[0]);
  }

  lemma RestoredIsSafe(history: seq<Token>, processed: set<nat>, stored: Token, checkpoints: seq<Token>)
    requires Safe(history, processed, stored) && forall c :: c in checkpoints ==> Safe(history, processed, c)
    ensures Safe(history, processed, RestoredCursor(Some(stored), Latest(checkpoints)))
  {
    NowIsSafe(history, processed);
  }

  lemma NowIsSafe(history: seq<Token>, processed: set<nat>)
    ensures Safe(history, processed, NOW)
  {
    assert Precedes(history, NOW, 0) && AllBefore(processed, 0);
  }

  // ---------------------------------------------------------------- each step keeps the invariant

  lemma HappenKeepsInv(w: World, token: Token, w': World)
    requires Inv(w) && Next(w, Happen(token), w')
    ensures Inv(w')
  {
    hide InstancesSafe, KeysSafe;
    InstancesSafeGrow(w.history, w.processed, w'.history, w.processed, w.instances);
    KeysSafeGrow(w.history, w.processed, w'.history, w.processed, w.stored, w.checkpoints);
  }

  lemma RestoreKeepsInv(w: World, step: Step, w': World)
    requires Inv(w) && Next(w, step, w') && (step.ReadCursor? || step.ReadCheckpoint?)
    ensures Inv(w')
  {
    NowIsSafe(w.history, w.processed);
    if step.ReadCheckpoint? {
      assert InstanceSafe(w.history, w.processed, w.instances[step.a]);
      RestoredIsSafe(w.history, w.processed, w.instances[step.a].pc.stored, w.checkpoints);
    }
    hide Safe, RestoredCursor;
    SetKeepsSafe(w.history, w.processed, w.instances, step.a, w'.instances[step.a]);
  }

  lemma FetchKeepsInv(w: World, a: InstanceId, first: nat, end: nat, w': World)
    requires Inv(w) && Next(w, Fetch(a, first, end), w')
    ensures Inv(w')
  {
    hide Ascending, KeysSafe, StartsAt, Safe;
    assert InstanceSafe(w.history, w.processed, w.instances[a]);
    SafeStart(w.history, w.processed, w.instances[a].cursor, first);
    SetKeepsSafe(w.history, w.processed, w.instances, a, w'.instances[a]);
  }

  lemma ProcessKeepsInv(w: World, a: InstanceId, w': World)
    requires Inv(w) && Next(w, Process(a), w')
    ensures Inv(w')
  {
    var k := w.instances[a].pc.k;
    assert InstanceSafe(w.history, w.processed, w.instances[a]);
    assert Precedes(w.history, w'.instances[a].cursor, k + 1) && AllBefore(w'.processed, k + 1);
    hide Ascending, KeysSafe, InstancesSafe;
    InstancesSafeGrow(w.history, w.processed, w.history, w'.processed, w.instances);
    KeysSafeGrow(w.history, w.processed, w.history, w'.processed, w.stored, w.checkpoints);
    SetKeepsSafe(w.history, w'.processed, w.instances, a, w'.instances[a]);
  }

  lemma PushKeepsInv(w: World, a: InstanceId, w': World)
    requires Inv(w) && Next(w, Push(a), w')
    ensures Inv(w')
  {
    hide Ascending, Safe, Precedes, AllBefore;
    assert InstanceSafe(w.history, w.processed, w.instances[a]);
    SetKeepsSafe(w.history, w.processed, w.instances, a, w'.instances[a]);
  }

  lemma TrimKeepsInv(w: World, a: InstanceId, w': World)
    requires Inv(w) && Next(w, Trim(a), w')
    ensures Inv(w')
  {
    hide Ascending, Safe, Precedes, AllBefore;
    assert InstanceSafe(w.history, w.processed, w.instances[a]);
    SetKeepsSafe(w.history, w.processed, w.instances, a, w'.instances[a]);
  }

  lemma FlushKeepsInv(w: World, a: InstanceId, replyLost: bool, w': World)
    requires Inv(w) && Next(w, Flush(a, replyLost), w')
    ensures Inv(w')
  {
    var inst := w.instances[a];
    assert InstanceSafe(w.history, w.processed, inst);
    assert inst.cursor != NOW by {
      assert inst.cursor == w.history[inst.pc.k] && IsNumeric(w.history[inst.pc.k]);
      NowIsNoNumber(inst.cursor);
    }
    hide Ascending, Safe, Precedes, AllBefore;
    SetKeepsSafe(w.history, w.processed, w.instances, a, w'.instances[a]);
  }

  lemma StopKeepsInv(w: World, step: Step, w': World)
    requires Inv(w) && Next(w, step, w')
      && (step.EndPage? || step.Throw? || step.Die? || step.LoseCursor? || step.LoseCheckpoints?)
    ensures Inv(w')
  {
    hide Ascending, Safe, Precedes, AllBefore;
    if step.EndPage? || step.Throw? {
      assert InstanceSafe(w.history, w.processed, w.instances[step.a]);
      SetKeepsSafe(w.history, w.processed, w.instances, step.a, w'.instances[step.a]);
    }
  }

  lemma NextKeepsInv(w: World, step: Step, w': World)
    requires Inv(w) && Next(w, step, w')
    ensures Inv(w')
  {
    hide Inv, Next;
    match step
    case Happen(token) => HappenKeepsInv(w, token, w');
    case ReadCursor(a) => RestoreKeepsInv(w, step, w');
    case ReadCheckpoint(a) => RestoreKeepsInv(w, step, w');
    case Fetch(a, first, end) => FetchKeepsInv(w, a, first, end, w');
    case Process(a) => ProcessKeepsInv(w, a, w');
    case Push(a) => PushKeepsInv(w, a, w');
    case Trim(a) => TrimKeepsInv(w, a, w');
    case Flush(a, replyLost) => FlushKeepsInv(w, a, replyLost, w');
    case EndPage(a) => StopKeepsInv(w, step, w');
    case Throw(a) => StopKeepsInv(w, step, w');
    case Die(a) => StopKeepsInv(w, step, w');
    case LoseCursor => StopKeepsInv(w, step, w');
    case LoseCheckpoints => StopKeepsInv(w, step, w');
  }

  lemma {:induction false} RunKeepsInv(ws: seq<World>, steps: seq<Step>)
    requires IsRun(ws, steps)
    ensures forall i :: 0 <= i < |ws| ==> Inv(ws[i])
  {
    if steps != [] {
      hide Inv, Next;
      var n := |steps| - 1;
      RunKeepsInv(ws[..n + 1], steps[..n]);
      assert Inv(ws[..n + 1][n]);
      NextKeepsInv(ws[n], steps[n], ws[n + 1]);
      assert forall i :: 0 <= i <= n ==> ws[i] == ws[..n + 1][i];
    }
  }

  // ---------------------------------------------------------------- main results

  /** No payment is skipped. In every run, every instance's cursor, the stored cursor and every checkpoint is a token
      up to which some instance has processed every operation. */
  lemma EveryTokenIsSafe(ws: seq<World>, steps: seq<Step>, i: nat)
    requires IsRun(ws, steps) && i < |ws|
    ensures forall a :: a in ws[i].instances ==> Safe(ws[i].history, ws[i].processed, ws[i].instances[a].cursor)
    ensures ws[i].stored.Some? ==> Safe(ws[i].history, ws[i].processed, ws[i].stored.value)
    ensures forall c :: c in ws[i].checkpoints ==> Safe(ws[i].history, ws[i].processed, c)
  {
    RunKeepsInv(ws, steps);
    assert Inv(ws[i]);
    forall a | a in ws[i].instances ensures Safe(ws[i].history, ws[i].processed, ws[i].instances[a].cursor) {
      assert InstanceSafe(ws[i].history, ws[i].processed, ws[i].instances[a]);
    }
  }

  /** Whenever an instance fetches, freshly restored or not, every operation before the page has been processed; so
      when Horizon has nothing after its cursor, the whole history has. */
  lemma PagesLeaveNoGap(ws: seq<World>, steps: seq<Step>, i: nat)
    requires IsRun(ws, steps) && i < |steps| && steps[i].Fetch?
    ensures AllBefore(ws[i].processed, steps[i].first)
  {
    RunKeepsInv(ws, steps);
    assert Inv(ws[i]) && Next(ws[i], steps[i], ws[i + 1]);
    var w, a := ws[i], steps[i].a;
    assert InstanceSafe(w.history, w.processed, w.instances[a]);
    SafeStart(w.history, w.processed, w.instances[a].cursor, steps[i].first);
  }

  /** A step changes the stored cursor only by losing it, by setting it where there was none, or by moving it from one
      operation's token to the next one's. */
  lemma SwapIsToTheNext(ws: seq<World>, steps: seq<Step>, i: nat)
    requires IsRun(ws, steps) && i < |steps| && ws[i + 1].stored != ws[i].stored
    ensures steps[i].LoseCursor? || steps[i].Flush?
    ensures steps[i].Flush? && ws[i].stored.Some? ==>
      exists k :: 0 < k < |ws[i].history| && ws[i].stored.value == ws[i].history[k - 1]
        && ws[i + 1].stored == Some(ws[i].history[k])
  {
    RunKeepsInv(ws, steps);
    assert Inv(ws[i]) && Next(ws[i], steps[i], ws[i + 1]);
    if steps[i].Flush? {
      var inst := ws[i].instances[steps[i].a];
      assert InstanceSafe(ws[i].history, ws[i].processed, inst);
      var k := inst.pc.k;
      assert ws[i].stored.Some? ==> 0 < k < |ws[i].history| && ws[i].stored.value == ws[i].history[k - 1];
    }
  }

  /** While Redis keeps the key, the stored cursor never goes back, whoever writes: it stays or it is ahead of what it
      was. */
  lemma {:induction false} StoredCursorOnlyAdvances(ws: seq<World>, steps: seq<Step>, m: nat, n: nat)
    requires IsRun(ws, steps) && m <= n < |ws| && ws[m].stored.Some?
    requires forall i :: m <= i < n ==> !steps[i].LoseCursor?
    ensures ws[n].stored.Some?
    ensures ws[n].stored == ws[m].stored || IsAhead(ws[n].stored.value, ws[m].stored.value)
    decreases n
  {
    if m < n {
      hide Next, IsAhead;
      StoredCursorOnlyAdvances(ws, steps, m, n - 1);
      if ws[n].stored != ws[n - 1].stored {
        SwapIsToTheNext(ws, steps, n - 1);
        SwapAdvances(ws, steps, n - 1);
        AheadIsAStrictWeakOrder(ws[n].stored.value, ws[n - 1].stored.value, ws[m].stored.value);
      }
    }
  }

  lemma SwapAdvances(ws: seq<World>, steps: seq<Step>, i: nat)
    requires IsRun(ws, steps) && i < |steps| && steps[i].Flush? && ws[i].stored.Some?
      && ws[i + 1].stored != ws[i].stored
    ensures ws[i + 1].stored.Some? && IsAhead(ws[i + 1].stored.value, ws[i].stored.value)
  {
    hide Next, IsAhead;
    SwapIsToTheNext(ws, steps, i);
    RunKeepsInv(ws, steps);
    assert Inv(ws[i]);
    var k :| 0 < k < |ws[i].history| && ws[i].stored.value == ws[i].history[k - 1]
      && ws[i + 1].stored == Some(ws[i].history[k]);
  }

  // ---------------------------------------------------------------- the same for numbers

  function Texts(ids: seq<nat>): (tokens: seq<Token>)
    ensures |tokens| == |ids| && forall i :: 0 <= i < |ids| ==> tokens[i] == Decimal(ids[i])
  {
    seq(|ids|, i requires 0 <= i < |ids| => Decimal(ids[i]))
  }

  /** A history of numbers is one the protocol admits exactly when the numbers go up. */
  lemma AscendingNumbers(ids: seq<nat>)
    ensures Ascending(Texts(ids)) <==> forall i, j :: 0 <= i < j < |ids| ==> ids[i] < ids[j]
  {
    forall i | 0 <= i < |ids| ensures IsNumeric(Texts(ids)[i]) {
      DecimalDenotes(ids[i]);
    }
    hide IsAhead, IsNumeric;
    forall i, j | 0 <= i < j < |ids| ensures IsAhead(Texts(ids)[j], Texts(ids)[i]) <==> ids[i] < ids[j] {
      AheadIsLarger(ids[j], ids[i]);
    }
  }

  /** The page after a number starts at the first larger one, and without a number at the beginning. */
  lemma PageStartsAfter(ids: seq<nat>, c: nat, first: nat)
    ensures StartsAt(Texts(ids), Decimal(c), first) <==>
      first <= |ids| && (forall i :: 0 <= i < first ==> ids[i] <= c) && (forall i :: first <= i < |ids| ==> ids[i] > c)
    ensures StartsAt(Texts(ids), "now", first) <==> first == 0
  {
    DecimalDenotes(c);
    NowIsNoNumber(Decimal(c));
    hide IsAhead, IsNumeric;
    forall i | 0 <= i < |ids| ensures IsAhead(Texts(ids)[i], Decimal(c)) <==> ids[i] > c {
      AheadIsLarger(ids[i], c);
    }
  }

  /** A token up to which all is processed, as a number: every operation up to it has been. */
  lemma SafeNumber(ids: seq<nat>, processed: set<nat>, c: nat, k: nat)
    requires Ascending(Texts(ids)) && Safe(Texts(ids), processed, Decimal(c)) && k < |ids| && ids[k] <= c
    ensures k in processed
  {
    AscendingNumbers(ids);
    DecimalDenotes(c);
    NowIsNoNumber(Decimal(c));
    var n: nat :| Precedes(Texts(ids), Decimal(c), n) && AllBefore(processed, n);
    DecimalDenotes(ids[n - 1]);
    assert ids[n - 1] == c;
  }

  /** No payment is skipped, in numbers: in every run every operation whose number is not above the stored cursor's, a
      checkpoint's or an instance's has been processed. */
  lemma NoNumberIsSkipped(ws: seq<World>, steps: seq<Step>, i: nat, ids: seq<nat>, c: nat, k: nat)
    requires IsRun(ws, steps) && i < |ws| && ws[i].history == Texts(ids) && k < |ids| && ids[k] <= c
    requires ws[i].stored == Some(Decimal(c)) || Decimal(c) in ws[i].checkpoints
      || exists a :: a in ws[i].instances && ws[i].instances[a].cursor == Decimal(c)
    ensures k in ws[i].processed
  {
    hide Inv, Safe, Next, Ascending, InitialWorld;
    EveryTokenIsSafe(ws, steps, i);
    RunKeepsInv(ws, steps);
    InvAscends(ws[i]);
    SafeNumber(ids, ws[i].processed, c, k);
  }

  lemma InvAscends(w: World)
    requires Inv(w)
    ensures Ascending(w.history)
  {
  }

  /** While Redis keeps the key the stored number never goes down. */
  lemma StoredNumberNeverFalls(ws: seq<World>, steps: seq<Step>, m: nat, n: nat, before: nat, after: nat)
    requires IsRun(ws, steps) && m <= n < |ws| && forall i :: m <= i < n ==> !steps[i].LoseCursor?
    requires ws[m].stored == Some(Decimal(before)) && ws[n].stored == Some(Decimal(after))
    ensures before <= after
  {
    hide IsRun, IsAhead;
    StoredCursorOnlyAdvances(ws, steps, m, n);
    AheadIsLarger(after, before);
    DecimalDenotes(before);
    DecimalDenotes(after);
  }

  /** The number of tokens pushed in a stretch of a run. */
  function PushedIn(steps: seq<Step>, i: nat, j: nat): nat
    requires i <= j <= |steps|
    decreases j - i
  {
    if i == j then 0 else PushedIn(steps, i, j - 1) + if steps[j - 1].Push? then 1 else 0
  }

  lemma ListGrowsByPushes(w: World, step: Step, w': World)
    requires Next(w, step, w')
    ensures |w'.checkpoints| <= |w.checkpoints| + if step.Push? then 1 else 0
    ensures step.Trim? ==> |w'.checkpoints| <= CHECKPOINT_MAX
  {
    hide Ascending, StartsAt, IsAhead;
  }

  /** The checkpoint list holds at most fifty tokens after every trim, whoever trims, and beyond that only what was
      pushed since. */
  lemma {:induction false} CheckpointsBounded(ws: seq<World>, steps: seq<Step>, m: nat, n: nat)
    requires IsRun(ws, steps) && m < n < |ws| && steps[m].Trim?
    ensures |ws[n].checkpoints| <= 50 + PushedIn(steps, m + 1, n)
    decreases n
  {
    hide Next;
    assert Next(ws[n - 1], steps[n - 1], ws[n - 1 + 1]);
    ListGrowsByPushes(ws[n - 1], steps[n - 1], ws[n]);
    if m + 1 < n {
      CheckpointsBounded(ws, steps, m, n - 1);
    }
  }
}
