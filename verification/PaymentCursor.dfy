/** The stored cursor and the checkpoint list of the watched account (src/payments/payment-cursor.service.ts). */
module PaymentCursor {
  import opened Options
  import opened AmountUtils

  type Token = string

  /** The cursor of an instance that restored nothing. */
  const NOW: Token := "now"
  const CHECKPOINT_MAX: nat := 50
  const PERSIST_EVERY: nat := 10

  /** `/^\d+$/` */
  predicate IsNumeric(t: Token) {
    t != "" && AllDigits(t)
  }

  predicate IsAhead(a: Token, b: Token) {
    if IsNumeric(a) && IsNumeric(b) then Value(a) > Value(b)
    else !IsNumeric(a) && IsNumeric(b)
  }

  /** The token an instance starts from; an absent or empty key counts as none. */
  function RestoredCursor(stored: Option<Token>, checkpoint: Option<Token>): Token {
    if stored == None || stored.value == "" then NOW
    else if checkpoint.Some? && checkpoint.value != "" && IsAhead(stored.value, checkpoint.value) then checkpoint.value
    else stored.value
  }

  function Latest(checkpoints: seq<Token>): Option<Token> {
    if checkpoints == [] then None else Some(checkpoints[0])
  }

  /** LPUSH, then LTRIM to the newest entries. */
  function Trimmed(checkpoints: seq<Token>): seq<Token> {
    if |checkpoints| <= CHECKPOINT_MAX then checkpoints else checkpoints[..CHECKPOINT_MAX]
  }

  /** The compare-and-swap script. */
  function Swapped(stored: Option<Token>, expected: Token, next: Token): Option<Token> {
    if stored == None || stored.value == expected then Some(next) else stored
  }

  class PaymentCursorService {
    var cursor: Option<Token>
    var checkpoints: seq<Token>

    constructor ()
      ensures cursor == None && checkpoints == []
    {
      cursor, checkpoints := None, [];
    }

    method GetLatestCheckpoint() returns (checkpoint: Option<Token>)
      ensures checkpoint == Latest(checkpoints)
    {
      checkpoint := if |checkpoints| > 0 then Some(checkpoints[0]) else None;
    }

    method RestoreCursor() returns (restored: Token)
      ensures restored == RestoredCursor(cursor, Latest(checkpoints))
      ensures cursor.Some? && cursor.value != "" ==> !IsAhead(restored, cursor.value)
      ensures cursor.Some? && cursor.value != "" && checkpoints != [] && checkpoints[0] != "" ==>
        !IsAhead(restored, checkpoints[0])
    {
      if cursor == None || cursor.value == "" {
        return NOW;
      }
      var checkpoint := GetLatestCheckpoint();
      if checkpoint != None && checkpoint.value != "" && IsAhead(cursor.value, checkpoint.value) {
        return checkpoint.value;
      }
      restored := cursor.value;
    }

    method UpdateCursor(expected: Token, next: Token) returns (updated: bool)
      modifies this`cursor
      ensures updated <==> old(cursor) == None || old(cursor) == Some(expected)
      ensures cursor == Swapped(old(cursor), expected, next)
      ensures cursor == if updated then Some(next) else old(cursor)
    {
      updated := cursor == None || cursor.value == expected;
      if updated {
        cursor := Some(next);
      }
    }

    method AppendCheckpoint(pagingToken: Token)
      modifies this`checkpoints
      ensures checkpoints == Trimmed([pagingToken] + old(checkpoints))
      ensures checkpoints
        == [pagingToken] + if |old(checkpoints)| < 50 then old(checkpoints) else old(checkpoints)[..49]
    {
      checkpoints := [pagingToken] + checkpoints;
      if |checkpoints| > CHECKPOINT_MAX {
        checkpoints := checkpoints[..CHECKPOINT_MAX];
      }
    }
  }

  // ---------------------------------------------------------------- the order on tokens

  /** A strict weak order on every string: numeric tokens by value, all others together above them. */
  lemma AheadIsAStrictWeakOrder(a: Token, b: Token, c: Token)
    ensures !IsAhead(a, a)
    ensures IsAhead(a, b) && IsAhead(b, c) ==> IsAhead(a, c)
    ensures IsAhead(a, c) ==> IsAhead(a, b) || IsAhead(b, c)
  {
  }

  lemma {:induction false} ValueDecidesDigits(a: Token, b: Token)
    requires AllDigits(a) && AllDigits(b) && |a| == |b| && Value(a) == Value(b)
    ensures a == b
  {
    if a != "" {
      var n := |a| - 1;
      ValueDecidesDigits(a[..n], b[..n]);
      assert a == a[..n] + [a[n]] && b == b[..n] + [b[n]];
    }
  }

  lemma LongerIsLarger(a: Token, b: Token)
    requires AllDigits(a) && AllDigits(b) && |a| > |b| && a[0] != '0'
    ensures Value(a) > Value(b)
  {
    hide Value, TimesPow10;
    var head, tail := a[..1], a[1..];
    assert a == head + tail;
    ValueConcat(head, tail);
    assert Value(head) >= 1 by { OneDigit(head); }
    TimesPow10Monotone(1, Value(head), |tail|);
    ValueBound(b);
    PowersGrow(|b|, |tail|);
  }

  lemma OneDigit(head: Token)
    requires AllDigits(head) && |head| == 1
    ensures Value(head) == DigitValue(head[0])
  {
    assert head[..0] == "";
  }

  lemma PowersGrow(small: nat, large: nat)
    requires small <= large
    ensures TimesPow10(1, small) <= TimesPow10(1, large)
  {
    var k := large - small;
    TimesPow10Adds(1, k, small);
    TimesPow10Monotone(0, 1, k);
    TimesPow10Monotone(1, TimesPow10(1, k), small);
  }

  /** Of two texts of one length the first differing digit decides. */
  lemma {:induction false} FirstDifferenceDecides(a: Token, b: Token, k: nat)
    requires AllDigits(a) && AllDigits(b) && k < |a| == |b| && a[..k] == b[..k] && a[k] > b[k]
    ensures Value(a) > Value(b)
  {
    var n := |a| - 1;
    if k < n {
      assert a[..n][..k] == a[..k] && b[..n][..k] == b[..k];
      FirstDifferenceDecides(a[..n], b[..n], k);
    } else {
      assert k == n;
    }
  }

  lemma {:induction false} FirstDifference(a: Token, b: Token) returns (k: nat)
    requires |a| == |b| && a != b
    ensures k < |a| && a[..k] == b[..k] && a[k] != b[k]
  {
    var n := |a| - 1;
    if a[..n] == b[..n] {
      assert a == a[..n] + [a[n]] && b == b[..n] + [b[n]];
      k := n;
    } else {
      k := FirstDifference(a[..n], b[..n]);
      assert a[..n][..k] == a[..k] && b[..n][..k] == b[..k];
    }
  }

  /** Without leading zeros, as Horizon writes them, a token is ahead of another exactly when it is longer or, at the
      same length, has the larger digit where they first differ; so different tokens are always ordered. */
  lemma CanonicalTokensAreOrdered(a: Token, b: Token)
    requires IsNumeric(a) && IsNumeric(b) && (a[0] == '0' ==> |a| == 1) && (b[0] == '0' ==> |b| == 1)
    ensures IsAhead(a, b) <==>
      || |a| > |b|
      || (|a| == |b| && exists k :: 0 <= k < |a| && a[..k] == b[..k] && a[k] > b[k])
    ensures a == b || IsAhead(a, b) || IsAhead(b, a)
  {
    if |a| > |b| {
      LongerIsLarger(a, b);
    } else if |a| < |b| {
      LongerIsLarger(b, a);
    } else {
      OrderedByDigits(a, b);
    }
  }

  lemma OrderedByDigits(a: Token, b: Token)
    requires IsNumeric(a) && IsNumeric(b) && |a| == |b|
    ensures IsAhead(a, b) <==> exists k :: 0 <= k < |a| && a[..k] == b[..k] && a[k] > b[k]
    ensures a == b || IsAhead(a, b) || IsAhead(b, a)
  {
    hide Value;
    if a != b {
      var d := FirstDifference(a, b);
      if a[d] > b[d] {
        FirstDifferenceDecides(a, b, d);
      } else {
        FirstDifferenceDecides(b, a, d);
        forall k | 0 <= k < |a| && a[..k] == b[..k] && a[k] > b[k] ensures false {
          FirstDifferenceDecides(a, b, k);
        }
      }
    }
  }

  /** What is no numeral is ahead of every numeral and of nothing else. */
  lemma OtherTokensAreOrdered(a: Token, b: Token)
    requires a == "" || exists i :: 0 <= i < |a| && !('0' <= a[i] <= '9')
    ensures IsAhead(a, b) <==> b != "" && forall i :: 0 <= i < |b| ==> '0' <= b[i] <= '9'
    ensures !IsAhead(b, a) || !(b != "" && forall i :: 0 <= i < |b| ==> '0' <= b[i] <= '9')
  {
  }

  // ---------------------------------------------------------------- tokens as Horizon writes them

  /** The decimal text of a number. */
  function Decimal(n: nat): Token {
    (if n < 10 then "" else Decimal(n / 10)) + [('0' as int + n % 10) as char]
  }

  lemma {:induction false} DecimalDenotes(n: nat)
    ensures IsNumeric(Decimal(n)) && Value(Decimal(n)) == n
    ensures Decimal(n)[0] == '0' ==> n == 0
  {
    var last := ('0' as int + n % 10) as char;
    if n < 10 {
      assert Decimal(n) == [last] && Decimal(n)[..0] == "";
    } else {
      DecimalDenotes(n / 10);
      assert Decimal(n)[..|Decimal(n)| - 1] == Decimal(n / 10);
    }
  }

  /** For numbers ahead means larger. */
  lemma AheadIsLarger(i: nat, j: nat)
    ensures IsAhead(Decimal(i), Decimal(j)) <==> i > j
  {
    hide Value;
    DecimalDenotes(i);
    DecimalDenotes(j);
  }

  /** Restoring takes the smaller of the stored cursor and the newest checkpoint; an empty key counts as absent. */
  lemma RestoresTheSmaller(i: nat, j: nat)
    ensures RestoredCursor(Some(Decimal(i)), Some(Decimal(j))) == Decimal(if i < j then i else j)
    ensures RestoredCursor(Some(Decimal(i)), None) == Decimal(i)
    ensures RestoredCursor(Some(Decimal(i)), Some("")) == Decimal(i)
    ensures RestoredCursor(None, Some(Decimal(j))) == RestoredCursor(Some(""), Some(Decimal(j))) == "now"
  {
    DecimalDenotes(i);
    DecimalDenotes(j);
    AheadIsLarger(i, j);
    hide IsAhead;
    assert i == j ==> Decimal(i) == Decimal(j);
  }

  /** The restored token is `now`, the stored cursor or the newest checkpoint, and never ahead of either of the two. */
  lemma RestoreNeverJumpsAhead(stored: Option<Token>, checkpoint: Option<Token>)
    ensures stored == None ==> RestoredCursor(stored, checkpoint) == NOW
    ensures stored.Some? && stored.value != "" ==>
      var r := RestoredCursor(stored, checkpoint);
      && (r == stored.value || checkpoint == Some(r))
      && !IsAhead(r, stored.value)
      && (checkpoint.Some? && checkpoint.value != "" ==> !IsAhead(r, checkpoint.value))
  {
  }
}
