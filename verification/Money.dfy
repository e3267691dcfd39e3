/** Exact amounts of money: 64-bit minor units, their arithmetic, and the decimal text of
    the external contract. Strings stand for byte strings. */
module Money {
  import opened Domain

  const SCALE: nat := 2
  const SCALE_FACTOR: nat := 100

  const MAX_INT64: int := 0x7FFF_FFFF_FFFF_FFFF
  const MIN_INT64: int := -0x8000_0000_0000_0000

  newtype int64 = x: int | MIN_INT64 <= x <= MAX_INT64
  newtype uint64 = x: int | 0 <= x < 0x1_0000_0000_0000_0000

  const MAX: int64 := 0x7FFF_FFFF_FFFF_FFFF
  const MIN: int64 := -0x8000_0000_0000_0000

  // ---------------------------------------------------------------- currency

  datatype Currency = Currency(code: string) {
    predicate IsZero() {
      code == ""
    }
  }

  function NewCurrency(code: string): Result<Currency> {
    if |code| != 3 || exists i :: 0 <= i < |code| && !('A' <= code[i] <= 'Z')
    then Err(Validation(InvalidInput))
    else Ok(Currency(code))
  }

  // ------------------------------------------------------------------- money

  datatype Money = Money(minorUnits: int64, currency: Currency) {
    function Units(): int {
      minorUnits as int
    }

    predicate IsZero() {
      minorUnits == 0
    }

    predicate IsPositive() {
      minorUnits > 0
    }

    predicate IsNegative() {
      minorUnits < 0
    }

    function Validate(): Result<()> {
      Require(!currency.IsZero(), Validation(InvalidInput))
    }

    function RequireSameCurrency(other: Money): Result<()> {
      var _ :- Validate();
      var _ :- other.Validate();
      Require(currency == other.currency, Validation(CurrencyMismatch))
    }

    predicate SameCurrency(other: Money) {
      !currency.IsZero() && currency == other.currency
    }

    /** The guards subtract only what cannot leave the range: every intermediate value
        below is an int64. */
    function Add(other: Money): (r: Result<Money>)
      ensures r.Ok? <==> SameCurrency(other) && MIN_INT64 <= Units() + other.Units() <= MAX_INT64
      ensures r.Ok? ==> r.value.currency == currency && r.value.Units() == Units() + other.Units()
      ensures r.Err? && SameCurrency(other) ==> r.error == Validation(AmountOverflow)
    {
      var _ :- RequireSameCurrency(other);
      if (other.minorUnits > 0 && minorUnits > MAX - other.minorUnits)
         || (other.minorUnits < 0 && minorUnits < MIN - other.minorUnits)
      then Err(Validation(AmountOverflow))
      else Ok(Money(minorUnits + other.minorUnits, currency))
    }

    function Sub(other: Money): (r: Result<Money>)
      ensures r.Ok? <==> SameCurrency(other) && MIN_INT64 <= Units() - other.Units() <= MAX_INT64
      ensures r.Ok? ==> r.value.currency == currency && r.value.Units() == Units() - other.Units()
      ensures r.Err? && SameCurrency(other) ==> r.error == Validation(AmountOverflow)
    {
      var _ :- RequireSameCurrency(other);
      if (other.minorUnits < 0 && minorUnits > MAX + other.minorUnits)
         || (other.minorUnits > 0 && minorUnits < MIN + other.minorUnits)
      then Err(Validation(AmountOverflow))
      else Ok(Money(minorUnits - other.minorUnits, currency))
    }

    function Neg(): (r: Result<Money>)
      ensures r.Ok? <==> !currency.IsZero() && -Units() <= MAX_INT64
      ensures r.Ok? ==> r.value.currency == currency && r.value.Units() == -Units()
    {
      var _ :- Validate();
      if minorUnits == MIN then Err(Validation(AmountOverflow))
      else Ok(Money(-minorUnits, currency))
    }

    function Cmp(other: Money): (r: Result<int>)
      ensures r.Ok? <==> SameCurrency(other)
      ensures r.Ok? ==> (r.value < 0 <==> Units() < other.Units()) && (r.value == 0 <==> this == other)
    {
      var _ :- RequireSameCurrency(other);
      Ok(if minorUnits < other.minorUnits then -1 else if minorUnits > other.minorUnits then 1 else 0)
    }
  }

  /** Two amounts meet only in one currency, and both currencies are set first. */
  lemma CurrenciesMeet(a: Money, b: Money)
    ensures var unset := a.currency.code == "" || b.currency.code == "";
            var refused := if unset then Validation(InvalidInput) else Validation(CurrencyMismatch);
            unset || a.currency != b.currency ==>
              a.Add(b) == Err(refused) && a.Sub(b) == Err(refused) && a.Cmp(b) == Err(refused)
  {
  }

  function New(minorUnits: int64, currency: Currency): Result<Money> {
    if currency.IsZero() then Err(Validation(InvalidInput)) else Ok(Money(minorUnits, currency))
  }

  function Zero(currency: Currency): Result<Money> {
    New(0, currency)
  }

  // ------------------------------------------------------------------ decimal

  predicate IsDigit(c: char) {
    '0' <= c <= '9'
  }

  ghost predicate AllDigits(s: string) {
    forall i :: 0 <= i < |s| ==> IsDigit(s[i])
  }

  function DigitOf(c: char): int64
    requires IsDigit(c)
    ensures 0 <= DigitOf(c) <= 9
  {
    (c as int - '0' as int) as int64
  }

  lemma DigitsAreTheseTen()
    ensures DigitOf('0') == 0 && DigitOf('1') == 1 && DigitOf('2') == 2 && DigitOf('3') == 3 && DigitOf('4') == 4
    ensures DigitOf('5') == 5 && DigitOf('6') == 6 && DigitOf('7') == 7 && DigitOf('8') == 8 && DigitOf('9') == 9
  {
  }

  function CharOf(digit: nat): (c: char)
    requires digit <= 9
    ensures IsDigit(c) && DigitOf(c) as int == digit
  {
    ('0' as int + digit) as char
  }

  /** The number a digit string spells, of any length. */
  ghost function Value(s: string): nat
    requires AllDigits(s)
  {
    if s == "" then 0 else 10 * Value(s[..|s| - 1]) + DigitOf(s[|s| - 1]) as int
  }

  lemma {:induction false} ValueConcat(s: string, t: string)
    requires AllDigits(s) && AllDigits(t)
    ensures AllDigits(s + t) && Value(s + t) == Value(s) * Pow10(|t|) + Value(t)
  {
    if t == "" {
      assert s + t == s;
    } else {
      var init := t[..|t| - 1];
      ValueConcat(s, init);
      assert (s + t)[..|s + t| - 1] == s + init;
      ShiftByTen(Value(s), Pow10(|init|), Value(init));
    }
  }

  lemma ShiftByTen(a: int, p: int, b: int)
    ensures 10 * (a * p + b) == a * (10 * p) + 10 * b
  {
  }

  ghost function Pow10(n: nat): (p: nat)
    ensures p >= 1
  {
    if n == 0 then 1 else 10 * Pow10(n - 1)
  }

  // ------------------------------------------------------------------ parsing

  function IndexOf(s: string, c: char): (i: nat)
    ensures i <= |s|
    ensures i < |s| ==> s[i] == c
    ensures forall j :: 0 <= j < i ==> s[j] != c
  {
    if s == "" then 0 else if s[0] == c then 0 else
      var i := IndexOf(s[1..], c);
      assert forall j :: 1 <= j < i + 1 ==> s[j] == s[1..][j - 1];
      i + 1
  }

  function Zeros(n: nat): (s: string)
    ensures |s| == n && forall i :: 0 <= i < n ==> s[i] == '0'
  {
    seq(n, _ => '0')
  }

  /** An amount as it is spelled: a sign, what precedes the decimal separator, whether
      there is one, and what follows it. */
  datatype Spelling = Spelling(negative: bool, whole: string, dotted: bool, frac: string) {
    ghost predicate WellFormed() {
      && whole != "" && AllDigits(whole)
      && AllDigits(frac) && |frac| <= SCALE
      && (dotted <==> frac != "")
    }

    function Digits(): string {
      whole + (if dotted then "." + frac else "")
    }

    function Text(): string {
      if negative then "-" + Digits() else Digits()
    }

    /** The value spelled, times 100. */
    ghost function Hundredths(): nat
      requires WellFormed()
    {
      Value(whole) * SCALE_FACTOR + Value(frac) * Pow10(SCALE - |frac|)
    }
  }

  function SpellingOf(amount: string): (x: Spelling)
    ensures !x.dotted ==> x.frac == ""
  {
    var negative := amount != "" && amount[0] == '-';
    var digits := if negative then amount[1..] else amount;
    var dot := IndexOf(digits, '.');
    if dot == |digits| then Spelling(negative, digits, false, "")
    else Spelling(negative, digits[..dot], true, digits[dot + 1..])
  }

  /** Nothing of the text is lost. */
  lemma TextOfSpelling(amount: string)
    ensures SpellingOf(amount).Text() == amount
  {
    var x := SpellingOf(amount);
    var digits := if x.negative then amount[1..] else amount;
    DigitsOfSpelling(x, digits);
    assert x.negative ==> "-" + digits == amount;
  }

  lemma DigitsOfSpelling(x: Spelling, digits: string)
    requires var dot := IndexOf(digits, '.');
             if dot == |digits| then x == Spelling(x.negative, digits, false, "")
             else x == Spelling(x.negative, digits[..dot], true, digits[dot + 1..])
    ensures x.Digits() == digits
  {
    if x.dotted {
      SplitAt(digits, IndexOf(digits, '.'));
    } else {
      assert x.whole + "" == digits;
    }
  }

  lemma SplitAt(digits: string, dot: nat)
    requires dot < |digits| && digits[dot] == '.'
    ensures digits[..dot] + ("." + digits[dot + 1..]) == digits
  {
  }

  /** The sign and the digits at the fixed scale, or the refusal of the spelling. */
  function Normalize(amount: string, allowNegative: bool): Result<(bool, string)> {
    var x := SpellingOf(amount);
    if amount == "" || (x.negative && !allowNegative) || x.whole == ""
       || (x.dotted && ('.' in x.frac || x.frac == "" || |x.frac| > SCALE))
    then Err(Validation(InvalidAmount))
    else Ok((x.negative, x.whole + x.frac + Zeros(SCALE - |x.frac|)))
  }

  /** Reading digits from the left, refusing the first step that would leave the range. */
  function Scan(s: string, units: int64): Result<int64>
    requires 0 <= units
  {
    if s == "" then Ok(units)
    else if !IsDigit(s[0]) then Err(Validation(InvalidAmount))
    else if units > (MAX - DigitOf(s[0])) / 10 then Err(Validation(AmountOverflow))
    else Scan(s[1..], units * 10 + DigitOf(s[0]))
  }

  function Parsed(amount: string, allowNegative: bool): Result<int64> {
    var normal :- Normalize(amount, allowNegative);
    var units :- Scan(normal.1, 0);
    Signed(normal.0, units)
  }

  function Signed(negative: bool, units: int64): Result<int64> {
    if !negative then Ok(units) else if units == MIN then Err(Validation(AmountOverflow)) else Ok(-units)
  }

  /** The loop of the parser. Every variable is an int64, so the accumulator and each of
      its intermediate values stay in range for digit strings of any length. */
  method Accumulate(combined: string) returns (r: Result<int64>)
    ensures r == Scan(combined, 0)
  {
    var minorUnits: int64 := 0;
    var i := 0;
    assert combined[0..] == combined;
    while i < |combined|
      invariant 0 <= i <= |combined|
      invariant 0 <= minorUnits
      invariant Scan(combined, 0) == Scan(combined[i..], minorUnits)
    {
      var c := combined[i];
      assert combined[i..][0] == c && combined[i..][1..] == combined[i + 1..];
      if !IsDigit(c) {
        return Err(Validation(InvalidAmount));
      }
      var digit := DigitOf(c);
      if minorUnits > (MAX - digit) / 10 {
        return Err(Validation(AmountOverflow));
      }
      minorUnits := minorUnits * 10 + digit;
      i := i + 1;
    }
    return Ok(minorUnits);
  }

  method ParseMinorUnits(amount: string, allowNegative: bool) returns (r: Result<int64>)
    ensures r == Parsed(amount, allowNegative)
  {
    if amount == "" {
      return Err(Validation(InvalidAmount));
    }
    var digits := amount;
    var negative := false;
    if digits[0] == '-' {
      if !allowNegative {
        return Err(Validation(InvalidAmount));
      }
      negative := true;
      digits := digits[1..];
    }

    var intPart, fracPart := digits, "";
    var dot := IndexOf(digits, '.');
    ghost var x := SpellingOf(amount);
    assert x.negative == negative && x.dotted == (dot < |digits|);
    if dot < |digits| {
      intPart, fracPart := digits[..dot], digits[dot + 1..];
      assert x.whole == intPart && x.frac == fracPart;
      if '.' in fracPart || fracPart == "" || |fracPart| > SCALE {
        return Err(Validation(InvalidAmount));
      }
    }
    if intPart == "" {
      return Err(Validation(InvalidAmount));
    }
    assert x == Spelling(negative, intPart, dot < |digits|, fracPart);
    var combined := intPart + fracPart + Zeros(SCALE - |fracPart|);
    assert Normalize(amount, allowNegative) == Ok((negative, combined));
    var minorUnits := Accumulate(combined);
    if minorUnits.Err? {
      return minorUnits;
    }
    ScanNeverShrinks(combined, 0);
    if negative {
      return Ok(-minorUnits.value);
    }
    return minorUnits;
  }

  lemma {:induction false} ScanNeverShrinks(s: string, units: int64)
    requires 0 <= units
    ensures Scan(s, units).Ok? ==> Scan(s, units).value >= 0
  {
    if s != "" && IsDigit(s[0]) && units <= (MAX - DigitOf(s[0])) / 10 {
      ScanNeverShrinks(s[1..], units * 10 + DigitOf(s[0]));
    }
  }

  lemma {:induction false} ScanReadsTheValue(s: string, units: int64)
    requires AllDigits(s) && 0 <= units
    ensures var total := units as int * Pow10(|s|) + Value(s);
            Scan(s, units) == if total > MAX_INT64 then Err(Validation(AmountOverflow)) else Ok(total as int64)
  {
    if s != "" {
      var rest, d := s[1..], DigitOf(s[0]);
      ValueFromTheLeft(s);
      TakeDigit(units as int, d as int, Pow10(|rest|), Value(rest));
      if units <= (MAX - d) / 10 {
        ScanReadsTheValue(rest, units * 10 + d);
      }
    }
  }

  lemma ValueFromTheLeft(s: string)
    requires s != "" && AllDigits(s)
    ensures AllDigits(s[1..]) && Value(s) == DigitOf(s[0]) as int * Pow10(|s| - 1) + Value(s[1..])
  {
    var first, rest := [s[0]], s[1..];
    assert s == first + rest;
    ValueConcat(first, rest);
    ValueOfOne(s[0]);
  }

  lemma ValueOfOne(c: char)
    requires IsDigit(c)
    ensures Value([c]) == DigitOf(c) as int
  {
    assert [c][..0] == "" && Value("") == 0;
  }

  lemma TakeDigit(units: nat, d: nat, p: nat, v: nat)
    requires p >= 1
    ensures units * (10 * p) + (d * p + v) == (units * 10 + d) * p + v
    ensures (units * 10 + d) * p + v >= units * 10 + d
  {
    assert (units * 10 + d) * p >= units * 10 + d;
  }

  lemma ValueOfZeros(n: nat)
    ensures Value(Zeros(n)) == 0
  {
    if n > 0 {
      assert Zeros(n)[..n - 1] == Zeros(n - 1);
      ValueOfZeros(n - 1);
    }
  }

  /** A well-formed spelling is read back from its own text. */
  lemma SpellingOfText(x: Spelling)
    requires x.WellFormed()
    ensures SpellingOf(x.Text()) == x
  {
    var digits := x.Digits();
    assert x.Text()[0] == if x.negative then '-' else x.whole[0];
    assert x.negative ==> x.Text()[1..] == digits;
    var dot := IndexOf(digits, '.');
    assert forall i :: 0 <= i < |x.whole| ==> digits[i] == x.whole[i] && digits[i] != '.';
    if x.dotted {
      assert digits[|x.whole|] == '.' && dot == |x.whole|;
      assert digits[..dot] == x.whole && digits[dot + 1..] == x.frac;
    }
  }

  lemma PaddedValue(x: Spelling)
    requires x.WellFormed()
    ensures var combined := x.whole + x.frac + Zeros(SCALE - |x.frac|);
            AllDigits(combined) && Value(combined) == x.Hundredths()
  {
    var n := SCALE - |x.frac|;
    ValueOfZeros(n);
    ValueConcat(x.whole, x.frac);
    ValueConcat(x.whole + x.frac, Zeros(n));
    assert Pow10(0) == 1 && Pow10(1) == 10 && Pow10(2) == 10 * Pow10(1);
    assert Value("") == 0;
    assert n == 0 || n == 1 || n == 2;
  }

  /** Well-formed decimal strings of any length parse to exactly their value times 100,
      signed; overflow is reported exactly when that exceeds the range. */
  lemma WellFormedParsesExactly(x: Spelling, allowNegative: bool)
    requires x.WellFormed() && (x.negative ==> allowNegative)
    ensures var h: int := x.Hundredths();
            Parsed(x.Text(), allowNegative) ==
            if h > MAX_INT64 then Err(Validation(AmountOverflow))
            else Ok((if x.negative then -h else h) as int64)
  {
    var combined := x.whole + x.frac + Zeros(SCALE - |x.frac|);
    assert AllDigits(combined) && Value(combined) == x.Hundredths() by { PaddedValue(x); }
    assert Normalize(x.Text(), allowNegative) == Ok((x.negative, combined)) by { NormalOfText(x, allowNegative); }
    ScanFromZero(combined);
  }

  lemma NormalOfText(x: Spelling, allowNegative: bool)
    requires x.WellFormed() && (x.negative ==> allowNegative)
    ensures Normalize(x.Text(), allowNegative) == Ok((x.negative, x.whole + x.frac + Zeros(SCALE - |x.frac|)))
  {
    SpellingOfText(x);
    assert x.Text() != "" && forall i :: 0 <= i < |x.frac| ==> IsDigit(x.frac[i]) && x.frac[i] != '.';
  }

  lemma ScanFromZero(s: string)
    requires AllDigits(s)
    ensures Scan(s, 0) == if Value(s) > MAX_INT64 then Err(Validation(AmountOverflow)) else Ok(Value(s) as int64)
  {
    ScanReadsTheValue(s, 0);
    assert 0 * Pow10(|s|) == 0;
  }

  lemma {:induction false} ScanAcceptsOnlyDigits(s: string, units: int64)
    requires 0 <= units && Scan(s, units).Ok?
    ensures AllDigits(s) && Scan(s, units).value >= 0
  {
    if s != "" {
      ScanAcceptsOnlyDigits(s[1..], units * 10 + DigitOf(s[0]));
      assert forall i :: 1 <= i < |s| ==> s[i] == s[1..][i - 1];
    }
  }

  lemma PartsOfDigits(s: string, t: string, u: string)
    requires AllDigits(s + t + u)
    ensures AllDigits(s) && AllDigits(t)
  {
    forall i | 0 <= i < |s| ensures IsDigit(s[i]) { assert (s + t + u)[i] == s[i]; }
    forall i | 0 <= i < |t| ensures IsDigit(t[i]) { assert (s + t + u)[|s| + i] == t[i]; }
  }

  /** Nothing but a well-formed amount is accepted. */
  lemma OnlyWellFormedParses(amount: string, allowNegative: bool)
    requires Parsed(amount, allowNegative).Ok?
    ensures var x := SpellingOf(amount); x.WellFormed() && x.Text() == amount && (x.negative ==> allowNegative)
  {
    var x := SpellingOf(amount);
    TextOfSpelling(amount);
    ScanAcceptsOnlyDigits(Normalize(amount, allowNegative).value.1, 0);
    PartsOfDigits(x.whole, x.frac, Zeros(SCALE - |x.frac|));
  }

  // ----------------------------------------------------------------- printing

  /** The shortest decimal text of a number. */
  function Decimal(n: nat): (s: string)
    ensures s != "" && AllDigits(s) && Value(s) == n
    ensures n > 0 ==> s[0] != '0'
    ensures |s| > 1 ==> s[0] != '0'
  {
    if n < 10 then
      var s := [CharOf(n)];
      assert s[..0] == "" && Value(s) == n;
      s
    else
      var s := Decimal(n / 10) + [CharOf(n % 10)];
      assert s[..|s| - 1] == Decimal(n / 10);
      s
  }

  lemma TwentyDigitsHoldUint64(n: uint64)
    ensures n as int < Pow10(20)
  {
    assert Pow10(5) == 100_000;
    assert Pow10(10) == 10_000_000_000 by { ValuePow(5, 5); }
    ValuePow(10, 10);
  }

  lemma {:induction false} ValuePow(m: nat, n: nat)
    ensures Pow10(m + n) == Pow10(m) * Pow10(n)
  {
    if n > 0 {
      ValuePow(m, n - 1);
    }
  }

  /** The digits still to be written of a number partly printed: none for zero. */
  ghost function Leading(n: nat): string {
    if n == 0 then "" else Decimal(n)
  }

  /** The last digit goes first. */
  lemma LastDigit(n: nat)
    requires n > 0
    ensures |Leading(n)| == |Leading(n / 10)| + 1
    ensures Leading(n)[|Leading(n)| - 1] == CharOf(n % 10) && Leading(n / 10) <= Leading(n)
  {
    if n < 10 {
      assert Leading(n) == [CharOf(n)];
    } else {
      assert Decimal(n) == Decimal(n / 10) + [CharOf(n % 10)];
    }
  }

  lemma {:induction false} AtMost(n: nat, digits: nat)
    requires n < Pow10(digits)
    ensures |Leading(n)| <= digits
  {
    if n > 0 {
      assert Pow10(0) == 1;
      LastDigit(n);
      AtMost(n / 10, digits - 1);
    }
  }

  lemma AtMostTwentyDigits(n: uint64)
    ensures |Leading(n as int)| <= 20
  {
    TwentyDigitsHoldUint64(n);
    AtMost(n as int, 20);
  }

  lemma {:induction false} ValueFits(t: string)
    requires AllDigits(t)
    ensures Value(t) < Pow10(|t|)
  {
    if t != "" {
      ValueFits(t[..|t| - 1]);
    }
  }

  /** No shorter text spells the same number. */
  lemma NoShorterText(t: string)
    requires t != "" && AllDigits(t)
    ensures |Decimal(Value(t))| <= |t|
  {
    ValueFits(t);
    AtMost(Value(t), |t|);
  }

  /** Fills a buffer of twenty bytes from its end. */
  method FormatUint(value: uint64) returns (s: string)
    ensures s == Decimal(value as int)
  {
    if value == 0 {
      return "0";
    }
    var buf := new char[20];
    var i := buf.Length;
    var v := value;
    ghost var n, text := value as int, Decimal(value as int);
    AtMostTwentyDigits(value);
    while v > 0
      invariant 0 <= n == v as int
      invariant 0 <= i == buf.Length - |text| + |Leading(n)| <= buf.Length
      invariant Leading(n) <= text
      invariant forall k :: i <= k < buf.Length ==> buf[k] == text[k - (buf.Length - |text|)]
      decreases v
    {
      LastDigit(n);
      i := i - 1;
      buf[i] := CharOf((v % 10) as int);
      v, n := v / 10, n / 10;
    }
    s := buf[i..];
  }

  function Magnitude(units: int64): nat {
    if units < 0 then -(units as int) else units as int
  }

  function TwoDigits(n: nat): (s: string)
    requires n < 100
    ensures AllDigits(s) && |s| == 2 && Value(s) == n
  {
    var s := [CharOf(n / 10), CharOf(n % 10)];
    assert s[..1] == [CharOf(n / 10)] && s[..1][..0] == "" && Value(s[..1]) == n / 10;
    s
  }

  /** The canonical text: a sign only for negative values, no leading zero, two decimals. */
  function AmountText(units: int64): string {
    (if units < 0 then "-" else "") + Decimal(Magnitude(units) / SCALE_FACTOR) + "."
    + TwoDigits(Magnitude(units) % SCALE_FACTOR)
  }

  /** The magnitude goes through `-(units + 1)`, so that the least int64 has one too. */
  method Amount(m: Money) returns (s: string)
    ensures s == AmountText(m.minorUnits)
  {
    var units := m.minorUnits;
    var sign := "";
    var abs: uint64;
    if units < 0 {
      sign := "-";
      abs := (-(units + 1)) as uint64 + 1;
    } else {
      abs := units as uint64;
    }
    var whole, frac := abs / 100, abs % 100;
    var text := FormatUint(whole);
    s := sign + text + "." + [CharOf((frac / 10) as int), CharOf((frac % 10) as int)];
    assert abs as int == Magnitude(units);
    assert [CharOf((frac / 10) as int), CharOf((frac % 10) as int)] == TwoDigits(frac as int);
  }

  /** Signed parsing of the printed amount returns the same minor units exactly when they
      are not the least int64, whose text is refused as an overflow. */
  lemma PrintThenParse(units: int64)
    ensures Parsed(AmountText(units), true) ==
            if units == MIN then Err(Validation(AmountOverflow)) else Ok(units)
  {
    var x := PrintedSpelling(units);
    WellFormedParsesExactly(x, true);
  }

  /** The canonical text is a well-formed spelling of the value. */
  lemma PrintedSpelling(units: int64) returns (x: Spelling)
    ensures x.WellFormed() && x.negative == (units < 0) && x.Text() == AmountText(units)
    ensures x.Hundredths() == Magnitude(units)
  {
    var m := Magnitude(units);
    var whole, frac := Decimal(m / SCALE_FACTOR), TwoDigits(m % SCALE_FACTOR);
    x := Spelling(units < 0, whole, true, frac);
    assert x.Hundredths() == m by { assert Pow10(0) == 1; }
    assert x.Digits() == whole + ("." + frac);
    assert whole + ("." + frac) == whole + "." + frac;
    assert "" + whole == whole;
  }

  /** Printing what was parsed gives one form for all the spellings of a value, and
      different forms for different values; the form is itself a spelling of the value. */
  lemma OneCanonicalForm(a: string, b: string, allowNegative: bool)
    requires Parsed(a, allowNegative).Ok? && Parsed(b, allowNegative).Ok?
    ensures AmountText(Parsed(a, allowNegative).value) == AmountText(Parsed(b, allowNegative).value)
            <==> Parsed(a, allowNegative) == Parsed(b, allowNegative)
    ensures Parsed(AmountText(Parsed(a, allowNegative).value), true) == Parsed(a, allowNegative)
  {
    ParsedIsNotMin(a, allowNegative);
    ParsedIsNotMin(b, allowNegative);
    PrintThenParse(Parsed(a, allowNegative).value);
    PrintThenParse(Parsed(b, allowNegative).value);
  }

  lemma ParsedIsNotMin(amount: string, allowNegative: bool)
    requires Parsed(amount, allowNegative).Ok?
    ensures Parsed(amount, allowNegative).value != MIN
  {
    ScanAcceptsOnlyDigits(Normalize(amount, allowNegative).value.1, 0);
  }

  /** The public parsers check the currency first. */
  method Parse(amount: string, currencyCode: string, allowNegative: bool) returns (r: Result<Money>)
    ensures var known := |currencyCode| == 3 && forall i :: 0 <= i < 3 ==> 'A' <= currencyCode[i] <= 'Z';
            r == if !known then Err(Validation(InvalidInput))
                 else match Parsed(amount, allowNegative)
                      case Err(e) => Err(e)
                      case Ok(units) => Ok(Money(units, Currency(currencyCode)))
  {
    var currency := NewCurrency(currencyCode);
    if currency.Err? {
      return Err(currency.error);
    }
    var units := ParseMinorUnits(amount, allowNegative);
    if units.Err? {
      return Err(units.error);
    }
    return Ok(Money(units.value, currency.value));
  }
}
