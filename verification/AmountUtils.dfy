/** Decimal amounts as scaled integers (src/payments/amount-utils.ts). */
module AmountUtils {
  import opened Options

  // ---------------------------------------------------------------- JavaScript string primitives

  predicate IsSpace(c: char) {
    || c == ' '
    || '\t' <= c <= '\r'
    || c == '\U{00A0}'
    || c == '\U{1680}'
    || '\U{2000}' <= c <= '\U{200A}'
    || '\U{2028}' <= c <= '\U{2029}'
    || c == '\U{202F}'
    || c == '\U{205F}'
    || c == '\U{3000}'
    || c == '\U{FEFF}'
  }

  function TrimStart(s: string): string {
    if s != "" && IsSpace(s[0]) then TrimStart(s[1..]) else s
  }

  function TrimEnd(s: string): string {
    if s != "" && IsSpace(s[|s| - 1]) then TrimEnd(s[..|s| - 1]) else s
  }

  function Trim(s: string): string {
    TrimEnd(TrimStart(s))
  }

  /** The text up to the first `.`. */
  function BeforeDot(s: string): string {
    if s == "" || s[0] == '.' then "" else [s[0]] + BeforeDot(s[1..])
  }

  /** The text after the first `.`, or nothing when there is none. */
  function AfterDot(s: string): string {
    if s == "" then "" else if s[0] == '.' then s[1..] else AfterDot(s[1..])
  }

  function Zeros(n: nat): (z: string)
    ensures |z| == n
    ensures forall i :: 0 <= i < n ==> z[i] == '0'
  {
    seq(n, _ => '0')
  }

  function PadEnd(s: string, width: nat): (r: string)
    ensures |r| >= width && s <= r
  {
    if |s| >= width then s else s + Zeros(width - |s|)
  }

  predicate IsDigit(c: char) {
    '0' <= c <= '9'
  }

  predicate AllDigits(s: string) {
    forall i :: 0 <= i < |s| ==> IsDigit(s[i])
  }

  function DigitValue(c: char): nat
    requires IsDigit(c)
  {
    c as int - '0' as int
  }

  function Value(s: string): nat
    requires AllDigits(s)
  {
    if s == "" then 0
    else Value(s[..|s| - 1]) * 10 + DigitValue(s[|s| - 1])
  }

  /** The value of one digit of a prefixed literal, or nothing. */
  function RadixDigit(c: char, base: nat): Option<nat> {
    var d := if IsDigit(c) then DigitValue(c)
             else if 'a' <= c <= 'f' then c as int - 'a' as int + 10
             else if 'A' <= c <= 'F' then c as int - 'A' as int + 10
             else base;
    if d < base then Some(d) else None
  }

  function RadixValue(digits: string, base: nat, soFar: nat := 0): Option<int> {
    if digits == "" then Some(soFar)
    else match RadixDigit(digits[0], base)
      case None => None
      case Some(d) => RadixValue(digits[1..], base, soFar * base + d)
  }

  /** `BigInt(text)`: nothing stands for the `SyntaxError` it throws. */
  function BigIntOf(text: string): Option<int> {
    var s := Trim(text);
    if s == "" then Some(0)
    else if |s| > 2 && s[0] == '0' && s[1] in "xX" then RadixValue(s[2..], 16)
    else if |s| > 2 && s[0] == '0' && s[1] in "oO" then RadixValue(s[2..], 8)
    else if |s| > 2 && s[0] == '0' && s[1] in "bB" then RadixValue(s[2..], 2)
    else if s[0] in "+-" && |s| > 1 && AllDigits(s[1..]) then
      Some(if s[0] == '-' then 0 - Value(s[1..]) else Value(s[1..]))
    else if AllDigits(s) then Some(Value(s))
    else None
  }

  // ---------------------------------------------------------------- the two exported functions

  const STELLAR_SCALE: nat := 7

  /** `parseAmountToBigInt` on strings; nothing stands for a thrown error. */
  function ParseAmountToBigInt(amount: string, scale: nat := STELLAR_SCALE): Option<int> {
    var str := Trim(amount);
    if str == "" then None
    else
      var isNegative := str[0] == '-';
      var unsignedStr := if isNegative then str[1..] else str;
      var intStr := BeforeDot(unsignedStr);
      var decStr := BeforeDot(AfterDot(unsignedStr));
      var paddedDec := PadEnd(decStr, scale)[..scale];
      match BigIntOf((if intStr == "" then "0" else intStr) + paddedDec)
      case None => None
      case Some(result) => Some(if isNegative then -result else result)
  }

  predicate AreAmountsEqual(a: string, b: string, scale: nat := STELLAR_SCALE) {
    var x, y := ParseAmountToBigInt(a, scale), ParseAmountToBigInt(b, scale);
    x.Some? && y.Some? && x.value == y.value
  }

  // ---------------------------------------------------------------- decimal numerals and their meaning

  /** n · 10^k */
  function TimesPow10(n: nat, k: nat): nat
    decreases k
  {
    if k == 0 then n else TimesPow10(10 * n, k - 1)
  }

  /** n / 10^k, rounded down: the last k digits dropped. */
  function DropDigits(n: nat, k: nat): nat {
    if k == 0 then n else DropDigits(n / 10, k - 1)
  }

  function Signed(negative: bool, magnitude: nat): int {
    if negative then 0 - magnitude else magnitude
  }

  /** A numeral: an optional minus sign, digits, and optionally a point and more digits. */
  datatype Numeral = Numeral(negative: bool, whole: string, fraction: Option<string>) {
    predicate Valid() {
      AllDigits(whole) && AllDigits(Fraction()) && Text() != ""
    }

    function Fraction(): string {
      match fraction case None => "" case Some(f) => f
    }

    function Text(): string {
      (if negative then "-" else "") + whole + (match fraction case None => "" case Some(f) => "." + f)
    }

    function Places(): nat {
      |Fraction()|
    }

    /** All its digits as one integer: the numeral denotes ±Digits() / 10^Places(). */
    function Digits(): nat
      requires Valid()
    {
      Value(whole + Fraction())
    }

    /** The denoted rational times 10^scale, truncated toward zero. */
    function Scaled(scale: nat): int
      requires Valid()
    {
      Signed(negative, DropDigits(TimesPow10(Digits(), scale), Places()))
    }
  }

  /** Equality of the rationals two numerals denote, cross-multiplied. */
  predicate SameValue(a: Numeral, b: Numeral)
    requires a.Valid() && b.Valid()
  {
    Signed(a.negative, TimesPow10(a.Digits(), b.Places())) == Signed(b.negative, TimesPow10(b.Digits(), a.Places()))
  }

  // ---------------------------------------------------------------- scaling by powers of ten

  lemma {:induction false} TimesPow10Adds(n: nat, a: nat, b: nat)
    ensures TimesPow10(TimesPow10(n, a), b) == TimesPow10(n, a + b)
    decreases a
  {
    if a > 0 {
      TimesPow10Adds(10 * n, a - 1, b);
    }
  }

  lemma {:induction false} TimesPow10Monotone(x: nat, y: nat, k: nat)
    ensures x < y ==> TimesPow10(x, k) < TimesPow10(y, k)
    ensures x == 0 ==> TimesPow10(x, k) == 0
    decreases k
  {
    if k > 0 {
      TimesPow10Monotone(10 * x, 10 * y, k - 1);
    }
  }

  lemma TimesPow10Injective(x: nat, y: nat, k: nat)
    ensures TimesPow10(x, k) == TimesPow10(y, k) <==> x == y
  {
    TimesPow10Monotone(x, y, k);
    TimesPow10Monotone(y, x, k);
  }

  /** Dropping undoes scaling, whatever was added below the dropped digits. */
  lemma {:induction false} DropUndoesTimes(q: nat, r: nat, k: nat)
    requires r < TimesPow10(1, k)
    ensures DropDigits(TimesPow10(q, k) + r, k) == q
  {
    if k > 0 {
      TimesPow10Adds(q, k - 1, 1);
      TimesPow10Adds(1, k - 1, 1);
      DropUndoesTimes(q, r / 10, k - 1);
      assert (TimesPow10(q, k) + r) / 10 == TimesPow10(q, k - 1) + r / 10;
    }
  }

  /** What the two scalings mean together: DropDigits is division by 10^k rounded down. */
  lemma {:induction false} DropRoundsDown(n: nat, k: nat)
    ensures TimesPow10(DropDigits(n, k), k) <= n < TimesPow10(DropDigits(n, k) + 1, k)
    decreases k
  {
    if k > 0 {
      DropRoundsDown(n / 10, k - 1);
      TimesPow10Adds(DropDigits(n, k), k - 1, 1);
      TimesPow10Adds(DropDigits(n, k) + 1, k - 1, 1);
    }
  }

  lemma DropExactly(q: nat, k: nat)
    ensures DropDigits(TimesPow10(q, k), k) == q
  {
    TimesPow10Monotone(0, 1, k);
    DropUndoesTimes(q, 0, k);
  }

  lemma {:induction false} DropAdds(n: nat, a: nat, b: nat)
    ensures DropDigits(DropDigits(n, a), b) == DropDigits(n, a + b)
  {
    if a > 0 {
      DropAdds(n / 10, a - 1, b);
    }
  }

  // ---------------------------------------------------------------- digit strings

  lemma {:induction false} ValueConcat(a: string, b: string)
    requires AllDigits(a) && AllDigits(b)
    ensures AllDigits(a + b)
    ensures Value(a + b) == TimesPow10(Value(a), |b|) + Value(b)
  {
    if b == "" {
      assert a + b == a;
    } else {
      var c := b[..|b| - 1];
      assert (a + b)[..|a + b| - 1] == a + c;
      ValueConcat(a, c);
      TimesPow10Adds(Value(a), |c|, 1);
    }
  }

  lemma {:induction false} ValueZeros(n: nat)
    ensures AllDigits(Zeros(n)) && Value(Zeros(n)) == 0
  {
    if n > 0 {
      assert Zeros(n)[..n - 1] == Zeros(n - 1);
      ValueZeros(n - 1);
    }
  }

  lemma {:induction false} ValueBound(s: string)
    requires AllDigits(s)
    ensures Value(s) < TimesPow10(1, |s|)
  {
    if s != "" {
      ValueBound(s[..|s| - 1]);
      TimesPow10Adds(1, |s| - 1, 1);
    }
  }

  lemma LeadingZeros(n: nat, s: string)
    requires AllDigits(s)
    ensures AllDigits(Zeros(n) + s) && Value(Zeros(n) + s) == Value(s)
  {
    ValueZeros(n);
    ValueConcat(Zeros(n), s);
    TimesPow10Monotone(0, 0, |s|);
  }

  lemma {:induction false} DigitsAreOneField(s: string, rest: string)
    requires AllDigits(s)
    requires rest == "" || rest[0] == '.'
    ensures BeforeDot(s + rest) == s
    ensures AfterDot(s + rest) == if rest == "" then "" else rest[1..]
  {
    if s != "" {
      assert (s + rest)[1..] == s[1..] + rest;
      DigitsAreOneField(s[1..], rest);
    } else {
      assert s + rest == rest;
    }
  }

  lemma TrimIsIdle(s: string)
    requires s == "" || (!IsSpace(s[0]) && !IsSpace(s[|s| - 1]))
    ensures Trim(s) == s
  {
  }

  lemma BigIntOfDigits(s: string)
    requires AllDigits(s) && s != ""
    ensures BigIntOf(s) == Some(Value(s))
  {
    assert IsDigit(s[0]) && IsDigit(s[|s| - 1]);
    TrimIsIdle(s);
    if |s| > 1 {
      assert IsDigit(s[1]);
    }
  }

  // ---------------------------------------------------------------- how the parser sees a numeral

  lemma FitShort(whole: string, frac: string, scale: nat)
    requires AllDigits(whole) && AllDigits(frac) && |frac| <= scale
    ensures var fit := frac + Zeros(scale - |frac|);
      && AllDigits(fit) && AllDigits(whole + frac) && AllDigits(whole + fit)
      && Value(whole + fit) == DropDigits(TimesPow10(Value(whole + frac), scale), |frac|)
  {
    hide DropDigits, TimesPow10, Value;
    var k := scale - |frac|;
    assert whole + (frac + Zeros(k)) == (whole + frac) + Zeros(k);
    ValueZeros(k);
    ValueConcat(whole + frac, Zeros(k));
    PadIsExact(Value(whole + frac), k, |frac|);
  }

  lemma FitLong(whole: string, frac: string, scale: nat)
    requires AllDigits(whole) && AllDigits(frac) && |frac| > scale
    ensures var fit := frac[..scale];
      && AllDigits(fit) && AllDigits(whole + frac) && AllDigits(whole + fit)
      && Value(whole + fit) == DropDigits(TimesPow10(Value(whole + frac), scale), |frac|)
  {
    hide DropDigits, TimesPow10, Value;
    var fit, rest := frac[..scale], frac[scale..];
    assert whole + frac == (whole + fit) + rest;
    ValueConcat(whole + fit, rest);
    ValueBound(rest);
    CutTruncates(Value(whole + fit), Value(rest), scale, |rest|);
  }

  /** Padding or cutting the fraction to `scale` digits is scaling by a power of ten and truncating. */
  lemma FitFraction(whole: string, frac: string, scale: nat, fit: string)
    requires AllDigits(whole) && AllDigits(frac)
    requires fit == PadEnd(frac, scale)[..scale]
    ensures AllDigits(fit) && AllDigits(whole + frac) && AllDigits(whole + fit)
    ensures Value(whole + fit) == DropDigits(TimesPow10(Value(whole + frac), scale), |frac|)
  {
    if |frac| <= scale {
      assert fit == frac + Zeros(scale - |frac|);
      hide *;
      FitShort(whole, frac, scale);
    } else {
      assert fit == frac[..scale];
      hide *;
      FitLong(whole, frac, scale);
    }
  }

  lemma PadIsExact(n: nat, pad: nat, places: nat)
    ensures DropDigits(TimesPow10(n, pad + places), places) == TimesPow10(n, pad)
  {
    TimesPow10Adds(n, pad, places);
    DropExactly(TimesPow10(n, pad), places);
  }

  lemma CutTruncates(q: nat, r: nat, scale: nat, cut: nat)
    requires r < TimesPow10(1, cut)
    ensures DropDigits(TimesPow10(TimesPow10(q, cut) + r, scale), scale + cut) == q
  {
    var n := TimesPow10(q, cut) + r;
    DropExactly(n, scale);
    DropAdds(TimesPow10(n, scale), scale, cut);
    DropUndoesTimes(q, r, cut);
  }

  lemma NumeralTextIsTrimmed(d: Numeral)
    requires d.Valid()
    ensures Trim(d.Text()) == d.Text()
  {
    var t := d.Text();
    assert forall i :: 0 <= i < |t| ==> IsDigit(t[i]) || t[i] == '-' || t[i] == '.';
    TrimIsIdle(t);
  }

  lemma CutNumeral(d: Numeral)
    requires d.Valid()
    ensures d.Text()[0] == '-' <==> d.negative
    ensures var u := if d.negative then d.Text()[1..] else d.Text();
      BeforeDot(u) == d.whole && BeforeDot(AfterDot(u)) == d.Fraction()
  {
    var rest := match d.fraction case None => "" case Some(f) => "." + f;
    if d.negative {
      assert d.Text()[1..] == d.whole + rest;
    } else {
      assert d.Text() == d.whole + rest;
    }
    DigitsAreOneField(d.whole, rest);
    DigitsAreOneField(d.Fraction(), "");
    assert d.Fraction() + "" == d.Fraction();
  }

  // ---------------------------------------------------------------- main results

  /** The digits handed to `BigInt` read as the whole part followed by the fitted fraction. */
  lemma PaddedDigits(whole: string, fit: string)
    requires AllDigits(whole) && AllDigits(fit)
    ensures AllDigits(whole + fit)
    ensures BigIntOf((if whole == "" then "0" else whole) + fit) == Some(Value(whole + fit))
  {
    hide Value;
    if whole == "" {
      LeadingZeros(1, fit);
      assert "0" + fit == Zeros(1) + fit;
      assert whole + fit == fit;
      BigIntOfDigits("0" + fit);
    } else {
      BigIntOfDigits(whole + fit);
    }
  }

  /** Parsing is exact: for every numeral and every scale it yields the denoted value times 10^scale, truncated toward
      zero. */
  lemma ParseIsExact(d: Numeral, scale: nat)
    requires d.Valid()
    ensures ParseAmountToBigInt(d.Text(), scale) == Some(d.Scaled(scale))
  {
    hide DropDigits, TimesPow10, Value, BigIntOf, Trim, BeforeDot, AfterDot;
    NumeralTextIsTrimmed(d);
    CutNumeral(d);
    var fit := PadEnd(d.Fraction(), scale)[..scale];
    FitFraction(d.whole, d.Fraction(), scale, fit);
    PaddedDigits(d.whole, fit);
  }

  /** What truncation means: in magnitude the parsed integer is the greatest that, taken as that many units of
      10^-scale, does not exceed the denoted value. */
  lemma ParseRoundsTowardZero(d: Numeral, scale: nat) returns (units: nat)
    requires d.Valid()
    ensures ParseAmountToBigInt(d.Text(), scale) == Some(Signed(d.negative, units))
    ensures TimesPow10(units, d.Places()) <= TimesPow10(d.Digits(), scale) < TimesPow10(units + 1, d.Places())
  {
    ParseIsExact(d, scale);
    units := DropDigits(TimesPow10(d.Digits(), scale), d.Places());
    DropRoundsDown(TimesPow10(d.Digits(), scale), d.Places());
  }

  /** With at most `scale` decimals, two amounts compare equal exactly when they denote the same number. */
  lemma EqualityIsExact(a: Numeral, b: Numeral, scale: nat)
    requires a.Valid() && b.Valid()
    requires a.Places() <= scale && b.Places() <= scale
    ensures AreAmountsEqual(a.Text(), b.Text(), scale) <==> SameValue(a, b)
  {
    hide ParseAmountToBigInt, DropDigits, TimesPow10, Value;
    ParseIsExact(a, scale);
    ParseIsExact(b, scale);
    var p, q := a.Places(), b.Places();
    CommonScale(a.Digits(), p, q, scale);
    CommonScale(b.Digits(), q, p, scale);
    var x, y := DropDigits(TimesPow10(a.Digits(), scale), p), DropDigits(TimesPow10(b.Digits(), scale), q);
    var u, v := TimesPow10(a.Digits(), q), TimesPow10(b.Digits(), p);
    TimesPow10Injective(x, y, p + q);
    TimesPow10Injective(u, v, scale);
    TimesPow10Injective(x, 0, p + q);
    TimesPow10Injective(u, 0, scale);
    TimesPow10Injective(y, 0, p + q);
    TimesPow10Injective(v, 0, scale);
    TimesPow10Monotone(0, 0, p + q);
    TimesPow10Monotone(0, 0, scale);
  }

  /** What cannot be parsed equals nothing, not even itself. */
  lemma MalformedEqualsNothing(a: string, b: string, scale: nat)
    requires ParseAmountToBigInt(a, scale) == None
    ensures !AreAmountsEqual(a, b, scale) && !AreAmountsEqual(b, a, scale)
  {
    hide ParseAmountToBigInt;
  }

  /** A prefixed literal is read digit by digit in its base. */
  lemma {:induction false} RadixAppends(s: string, c: char, base: nat, soFar: nat)
    ensures RadixValue(s + [c], base, soFar) ==
      match RadixValue(s, base, soFar)
      case None => None
      case Some(v) =>
        var d := if '0' <= c <= '9' then c as int - 48 else if 'a' <= c <= 'f' then c as int - 87
                 else if 'A' <= c <= 'F' then c as int - 55 else base;
        if d < base then Some(v * base + d) else None
  {
    if s == "" {
      assert s + [c] == [c] && [c][1..] == "";
    } else {
      assert (s + [c])[1..] == s[1..] + [c];
      match RadixDigit(s[0], base)
      case None =>
      case Some(d) => RadixAppends(s[1..], c, base, soFar * base + d);
    }
  }

  /** Such literals are taken with all three prefixes, in either case and without a sign. */
  lemma PrefixesName(digits: string)
    requires digits != "" && Trim(digits) == digits && !IsSpace(digits[0])
    ensures Trim("0x" + digits) == "0x" + digits ==> BigIntOf("0x" + digits) == RadixValue(digits, 16)
    ensures Trim("0X" + digits) == "0X" + digits ==> BigIntOf("0X" + digits) == RadixValue(digits, 16)
    ensures Trim("0o" + digits) == "0o" + digits ==> BigIntOf("0o" + digits) == RadixValue(digits, 8)
    ensures Trim("0b" + digits) == "0b" + digits ==> BigIntOf("0b" + digits) == RadixValue(digits, 2)
  {
    hide Trim, IsSpace, RadixValue;
    assert ("0x" + digits)[2..] == digits && ("0X" + digits)[2..] == digits;
    assert ("0o" + digits)[2..] == digits && ("0b" + digits)[2..] == digits;
  }

  /** With any number of decimals, two amounts compare equal exactly when they agree once truncated to `scale`
      decimals. */
  lemma EqualityComparesTruncated(a: Numeral, b: Numeral, scale: nat)
    requires a.Valid() && b.Valid()
    ensures AreAmountsEqual(a.Text(), b.Text(), scale) <==> a.Scaled(scale) == b.Scaled(scale)
  {
    hide ParseAmountToBigInt;
    ParseIsExact(a, scale);
    ParseIsExact(b, scale);
  }

  /** Both ways of putting n · 10^-p over a common denominator. */
  lemma CommonScale(n: nat, p: nat, q: nat, scale: nat)
    requires p <= scale
    ensures TimesPow10(DropDigits(TimesPow10(n, scale), p), p + q) == TimesPow10(TimesPow10(n, q), scale)
  {
    TimesPow10Adds(n, scale - p, p);
    TimesPow10Monotone(0, 1, p);
    DropUndoesTimes(TimesPow10(n, scale - p), 0, p);
    TimesPow10Adds(n, scale - p, p + q);
    TimesPow10Adds(n, q, scale);
  }

  /** The same numeral with zeros written before its whole part and, if it has a point, after its fraction. */
  function Padded(d: Numeral, leading: nat, trailing: nat): Numeral {
    var fraction := match d.fraction case None => None case Some(f) => Some(f + Zeros(trailing));
    Numeral(d.negative, Zeros(leading) + d.whole, fraction)
  }

  lemma PaddedDigitsScale(d: Numeral, leading: nat, trailing: nat)
    requires d.Valid()
    ensures var e := Padded(d, leading, trailing);
      e.Valid() && e.Digits() == TimesPow10(d.Digits(), e.Places() - d.Places()) && e.Places() >= d.Places()
  {
    hide TimesPow10, Value;
    var digits := d.whole + d.Fraction();
    ValueZeros(leading);
    ValueZeros(trailing);
    if d.fraction.Some? {
      ValueConcat(digits, Zeros(trailing));
      LeadingZeros(leading, digits + Zeros(trailing));
      assert Zeros(leading) + d.whole + (d.fraction.value + Zeros(trailing))
        == Zeros(leading) + (digits + Zeros(trailing));
    } else {
      LeadingZeros(leading, digits);
      assert Zeros(leading) + d.whole + "" == Zeros(leading) + digits;
      NoScaling(d.Digits());
    }
  }

  lemma NoScaling(n: nat)
    ensures TimesPow10(n, 0) == n
  {
  }

  /** Zeros before the whole part or after the fraction never change the parsed amount, with or without a point. */
  lemma ZerosDoNotMatter(d: Numeral, leading: nat, trailing: nat, scale: nat)
    requires d.Valid()
    ensures var e := Padded(d, leading, trailing);
      e.Valid() && ParseAmountToBigInt(e.Text(), scale) == ParseAmountToBigInt(d.Text(), scale)
  {
    hide ParseAmountToBigInt, DropDigits, TimesPow10, Value, Padded;
    var e := Padded(d, leading, trailing);
    PaddedDigitsScale(d, leading, trailing);
    ParseIsExact(d, scale);
    ParseIsExact(e, scale);
    SameScaled(d.Digits(), d.Places(), e.Places() - d.Places(), scale);
    PaddedSign(d, leading, trailing);
  }

  lemma PaddedSign(d: Numeral, leading: nat, trailing: nat)
    ensures Padded(d, leading, trailing).negative == d.negative
  {
  }

  /** Scaling both the digits and the number of places changes nothing. */
  lemma SameScaled(digits: nat, places: nat, more: nat, scale: nat)
    ensures DropDigits(TimesPow10(TimesPow10(digits, more), scale), places + more)
      == DropDigits(TimesPow10(digits, scale), places)
  {
    TimesPow10Adds(digits, more, scale);
    TimesPow10Adds(digits, scale, more);
    DropAdds(TimesPow10(TimesPow10(digits, more), scale), more, places);
    DropExactly(TimesPow10(digits, scale), more);
  }

  predicate AllSpaces(s: string) {
    forall i :: 0 <= i < |s| ==> IsSpace(s[i])
  }

  lemma {:induction false} TrimStartDropsSpaces(before: string, s: string)
    requires AllSpaces(before) && (s != "" ==> !IsSpace(s[0]))
    ensures TrimStart(before + s) == s
  {
    hide IsSpace;
    if before == "" {
      assert before + s == s;
    } else {
      assert (before + s)[1..] == before[1..] + s;
      TrimStartDropsSpaces(before[1..], s);
    }
  }

  lemma {:induction false} TrimEndDropsSpaces(s: string, after: string)
    requires AllSpaces(after) && (s != "" ==> !IsSpace(s[|s| - 1]))
    ensures TrimEnd(s + after) == s
  {
    hide IsSpace;
    if after == "" {
      assert s + after == s;
    } else {
      assert (s + after)[..|s + after| - 1] == s + after[..|after| - 1];
      TrimEndDropsSpaces(s, after[..|after| - 1]);
    }
  }

  lemma TrimDropsSpaces(before: string, s: string, after: string)
    requires AllSpaces(before) && AllSpaces(after) && s != "" && !IsSpace(s[0]) && !IsSpace(s[|s| - 1])
    ensures Trim(before + s + after) == s && Trim(before) == ""
  {
    hide IsSpace, TrimStart, TrimEnd;
    assert before + s + after == before + (s + after);
    TrimStartDropsSpaces(before, s + after);
    TrimEndDropsSpaces(s, after);
    assert before + "" == before;
    TrimStartDropsSpaces(before, "");
    assert "" + "" == "";
    TrimEndDropsSpaces("", "");
  }

  lemma NumeralEdges(d: Numeral)
    requires d.Valid()
    ensures var t := d.Text(); !IsSpace(t[0]) && !IsSpace(t[|t| - 1])
  {
    var t := d.Text();
    assert forall i :: 0 <= i < |t| ==> IsDigit(t[i]) || t[i] == '-' || t[i] == '.';
  }

  lemma ParseTrims(a: string, b: string, scale: nat)
    requires Trim(a) == Trim(b)
    ensures ParseAmountToBigInt(a, scale) == ParseAmountToBigInt(b, scale)
    ensures Trim(a) == "" ==> ParseAmountToBigInt(a, scale) == None
  {
    hide Trim, BeforeDot, AfterDot, BigIntOf, PadEnd;
  }

  /** Spaces around a numeral never change the parsed amount, and nothing but spaces is refused. */
  lemma SpacesDoNotMatter(d: Numeral, before: string, after: string, scale: nat)
    requires d.Valid() && AllSpaces(before) && AllSpaces(after)
    ensures ParseAmountToBigInt(before + d.Text() + after, scale) == ParseAmountToBigInt(d.Text(), scale)
    ensures ParseAmountToBigInt(before, scale) == None
  {
    hide ParseAmountToBigInt, Trim, IsSpace, AllSpaces;
    NumeralEdges(d);
    TrimDropsSpaces(before, d.Text(), after);
    NumeralTextIsTrimmed(d);
    ParseTrims(before + d.Text() + after, d.Text(), scale);
    ParseTrims(before, before, scale);
  }

  // ---------------------------------------------------------------- printing and parsing back

  /** The last `width` decimal digits of n. */
  function LastDigits(n: nat, width: nat): (s: string)
    ensures |s| == width && AllDigits(s)
    ensures TimesPow10(DropDigits(n, width), width) + Value(s) == n
  {
    if width == 0 then ""
    else
      var s := LastDigits(n / 10, width - 1);
      var c := ('0' as int + n % 10) as char;
      assert (s + [c])[..width - 1] == s;
      TimesPow10Adds(DropDigits(n, width), width - 1, 1);
      s + [c]
  }

  /** Enough digits to write n. */
  function Width(n: nat): (w: nat)
    ensures w > 0 && DropDigits(n, w) == 0
  {
    if n < 10 then assert DropDigits(n, 1) == DropDigits(n / 10, 0); 1 else 1 + Width(n / 10)
  }

  /** The usual way of writing n · 10^-scale. */
  function Print(n: int, scale: nat): (d: Numeral)
    ensures d.Valid() && d.Places() == scale
  {
    var m: nat := if n < 0 then 0 - n else n;
    var whole := DropDigits(m, scale);
    var fraction := if scale == 0 then None else Some(LastDigits(m, scale));
    Numeral(n < 0, LastDigits(whole, Width(whole)), fraction)
  }

  lemma PrintThenParse(n: int, scale: nat)
    ensures ParseAmountToBigInt(Print(n, scale).Text(), scale) == Some(n)
  {
    hide DropDigits, TimesPow10, Value;
    var m: nat := if n < 0 then 0 - n else n;
    var d := Print(n, scale);
    var whole := DropDigits(m, scale);
    TimesPow10Monotone(0, 0, Width(whole));
    assert Value(d.whole) == whole;
    assert d.Fraction() == LastDigits(m, scale);
    ValueConcat(d.whole, d.Fraction());
    assert d.Digits() == m;
    ParseIsExact(d, scale);
    TimesPow10Monotone(0, 1, scale);
    DropUndoesTimes(m, 0, scale);
  }

  /** Beyond `scale` decimals equality only means equality after truncation: these differ, yet compare equal. */
  lemma TruncationLosesDigits()
    ensures var a, b := Numeral(false, "0", Some(Zeros(7) + "1")), Numeral(false, "0", None);
      a.Valid() && b.Valid() && AreAmountsEqual(a.Text(), b.Text()) && !SameValue(a, b)
  {
    var a, b := Numeral(false, "0", Some(Zeros(7) + "1")), Numeral(false, "0", None);
    assert a.whole + a.Fraction() == Zeros(8) + "1";
    assert b.whole + b.Fraction() == Zeros(1) + "";
    LeadingZeros(8, "1");
    LeadingZeros(1, "");
    assert Value("1") == 1;
    ParseIsExact(a, STELLAR_SCALE);
    ParseIsExact(b, STELLAR_SCALE);
    TimesPow10Adds(1, 7, 1);
    TimesPow10Monotone(0, 0, 7);
    TimesPow10Monotone(0, 0, 8);
    DropAdds(TimesPow10(1, 7), 7, 1);
    DropUndoesTimes(1, 0, 7);
    assert DropDigits(1, 1) == DropDigits(0, 0);
  }
}
