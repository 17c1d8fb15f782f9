/** Amount text of the checkout: printing minor units and reading them back. */
module Money {
  import opened Wrappers
  import opened Domain

  const MAX_MINOR_UNITS := 999_999_999

  predicate IsDigit(c: char) {
    '0' <= c <= '9'
  }

  predicate AllDigits(s: string) {
    forall i :: 0 <= i < |s| ==> IsDigit(s[i])
  }

  function DigitValue(c: char): nat
    requires IsDigit(c)
  {
    c as int - '0' as int
  }

  /** The number a run of decimal digits stands for. */
  function Value(s: string): nat
    requires AllDigits(s)
  {
    if s == "" then 0 else 10 * Value(s[..|s| - 1]) + DigitValue(s[|s| - 1])
  }

  // ----- reading ----------------------------------------------------------------------------------------------

  /** Drops leading zeros as long as a digit follows. */
  function DropZeros(s: string): string {
    if |s| >= 2 && s[0] == '0' && IsDigit(s[1]) then DropZeros(s[1..]) else s
  }

  function BoundedInteger(digits: string): Option<int>
    requires AllDigits(digits) && digits != ""
  {
    DropZerosKeepsValue(digits);
    var amount := Value(DropZeros(digits));
    if amount <= 0 || amount > MAX_MINOR_UNITS then None else Some(amount)
  }

  /** The index of the first character that is not a digit, or the length. */
  function DigitsEnd(s: string): (n: nat)
    ensures n <= |s| && AllDigits(s[..n]) && (n < |s| ==> !IsDigit(s[n]))
  {
    if s == "" || !IsDigit(s[0]) then 0
    else
      var n := 1 + DigitsEnd(s[1..]);
      assert s[..n] == [s[0]] + s[1..][..n - 1];
      n
  }

  /** Pads a fraction of at most two digits to two with zeros on the right. */
  function PadEnd(s: string): string {
    if |s| == 0 then "00" else if |s| == 1 then s + "0" else s
  }

  function ParseMinorUnits(value: string, currency: Currency): Option<int> {
    var n := DigitsEnd(value);
    match currency
    case JPY =>
      if n == 0 || n != |value| then None
      else
        assert value[..n] == value;
        BoundedInteger(value)
    case USD =>
      if n == 0 then None
      else if n == |value| then
        assert AllDigits(value[..n] + "00");
        BoundedInteger(value[..n] + "00")
      else
        var fraction := value[n + 1..];
        if value[n] == '.' && 1 <= |fraction| <= 2 && AllDigits(fraction) then
          assert AllDigits(value[..n] + PadEnd(fraction));
          BoundedInteger(value[..n] + PadEnd(fraction))
        else None
  }

  // ----- printing ---------------------------------------------------------------------------------------------

  function DigitOf(n: nat): char
    requires n < 10
  {
    '0' + n as char
  }

  function Print(n: nat): string {
    if n < 10 then [DigitOf(n)] else Print(n / 10) + [DigitOf(n % 10)]
  }

  /** Pads on the left to two characters. */
  function PadStart(s: string): string {
    if |s| == 0 then "00" else if |s| == 1 then "0" + s else s
  }

  function DisplayAmount(amount: nat, currency: Currency): string {
    match currency
    case JPY => Print(amount)
    case USD => Print(amount / 100) + "." + PadStart(Print(amount % 100))
  }

  // ----- what the text means ----------------------------------------------------------------------------------

  /** The texts that stand for an amount: digits, and for dollars at most two more after a point. */
  ghost predicate Denotes(value: string, currency: Currency, whole: string, fraction: string) {
    && whole != "" && AllDigits(whole) && AllDigits(fraction)
    && match currency
       case JPY => fraction == "" && value == whole
       case USD => |fraction| <= 2 && value == whole + (if fraction == "" then "" else "." + fraction)
  }

  function Scale(currency: Currency): nat {
    match currency case JPY => 1 case USD => 100
  }

  function Tens(n: nat): (power: nat)
    ensures power > 0
  {
    if n == 0 then 1 else 10 * Tens(n - 1)
  }

  /** The exact amount a text stands for, in minor units. */
  ghost function Exact(currency: Currency, whole: string, fraction: string): real
    requires AllDigits(whole) && AllDigits(fraction)
  {
    var major := Value(whole) as real + Value(fraction) as real / Tens(|fraction|) as real;
    Scale(currency) as real * major
  }

  lemma {:induction false} DropZerosKeepsValue(s: string)
    requires AllDigits(s)
    ensures AllDigits(DropZeros(s)) && Value(DropZeros(s)) == Value(s)
    ensures s != "" ==> DropZeros(s) != ""
  {
    if |s| >= 2 && s[0] == '0' {
      LeadingZero(s[1..]);
      assert s == "0" + s[1..];
      DropZerosKeepsValue(s[1..]);
    }
  }

  lemma {:induction false} LeadingZero(s: string)
    requires AllDigits(s)
    ensures AllDigits("0" + s) && Value("0" + s) == Value(s)
  {
    var longer := "0" + s;
    if s != "" {
      assert longer[..|longer| - 1] == "0" + s[..|s| - 1];
      LeadingZero(s[..|s| - 1]);
    }
  }

  lemma {:induction false} ValueAppend(a: string, b: string)
    requires AllDigits(a) && AllDigits(b)
    ensures AllDigits(a + b) && Value(a + b) == Value(a) * Tens(|b|) + Value(b)
    decreases |b|
  {
    if b == "" {
      assert a + b == a;
    } else {
      var init := b[..|b| - 1];
      assert (a + b)[..|a + b| - 1] == a + init;
      ValueAppend(a, init);
      assert Value(a + b) == 10 * (Value(a) * Tens(|init|) + Value(init)) + DigitValue(b[|b| - 1]);
      Shift(Value(a), Tens(|init|));
    }
  }

  lemma Shift(a: nat, b: nat)
    ensures a * (10 * b) == 10 * (a * b)
  {
  }

  lemma {:induction false} DigitsEndAt(whole: string, rest: string)
    requires AllDigits(whole) && (rest == "" || !IsDigit(rest[0]))
    ensures DigitsEnd(whole + rest) == |whole|
    decreases |whole|
  {
    if whole != "" {
      assert (whole + rest)[1..] == whole[1..] + rest;
      DigitsEndAt(whole[1..], rest);
    }
  }

  lemma BoundedIsExact(digits: string)
    requires AllDigits(digits) && digits != ""
    ensures BoundedInteger(digits) == if 1 <= Value(digits) <= MAX_MINOR_UNITS then Some(Value(digits)) else None
  {
    DropZerosKeepsValue(digits);
  }

  /** The digits that are read for a text: those before the point, and for dollars two more. */
  function Digits(currency: Currency, whole: string, fraction: string): string {
    match currency case JPY => whole case USD => whole + PadEnd(fraction)
  }

  lemma ParseReads(value: string, currency: Currency, whole: string, fraction: string)
    requires Denotes(value, currency, whole, fraction)
    ensures var digits := Digits(currency, whole, fraction);
            AllDigits(digits) && digits != "" && ParseMinorUnits(value, currency) == BoundedInteger(digits)
  {
    var rest := if fraction == "" then "" else "." + fraction;
    DigitsEndAt(whole, if currency == JPY then "" else rest);
    assert whole + "" == whole;
    if currency == USD && fraction != "" {
      assert value[..|whole|] == whole;
      assert value[|whole|] == '.' && value[|whole| + 1..] == fraction;
    }
  }

  lemma DigitsAreExact(currency: Currency, whole: string, fraction: string)
    requires AllDigits(whole) && AllDigits(fraction) && |fraction| <= 2 && (currency == JPY ==> fraction == "")
    ensures AllDigits(Digits(currency, whole, fraction))
    ensures Value(Digits(currency, whole, fraction)) as real == Exact(currency, whole, fraction)
  {
    if currency == USD {
      DollarsAreExact(whole, fraction);
    } else {
      assert Value(fraction) == 0;
    }
  }

  lemma DollarsAreExact(whole: string, fraction: string)
    requires AllDigits(whole) && AllDigits(fraction) && |fraction| <= 2
    ensures AllDigits(whole + PadEnd(fraction))
    ensures Value(whole + PadEnd(fraction)) as real == Exact(USD, whole, fraction)
  {
    assert Tens(2) == 100 by { assert Tens(0) == 1 && Tens(1) == 10; }
    PaddedValue(fraction);
    ValueAppend(whole, PadEnd(fraction));
  }

  lemma PaddedValue(fraction: string)
    requires AllDigits(fraction) && |fraction| <= 2
    ensures AllDigits(PadEnd(fraction)) && |PadEnd(fraction)| == 2
    ensures Value(PadEnd(fraction)) ==
            (if |fraction| == 0 then 0 else if |fraction| == 1 then 10 * Value(fraction) else Value(fraction))
    ensures |fraction| == 0 ==> Value(fraction) == 0
  {
    var padded := PadEnd(fraction);
    if |fraction| == 0 {
      assert Value("") == 0;
      LeadingZero("");
      LeadingZero("0");
      assert "0" + "" == "0" && "0" + "0" == padded;
    } else if |fraction| == 1 {
      assert padded[..1] == fraction;
    }
  }

  /** Reading a text that denotes an amount returns its exact value when that is within bounds, and else nothing. */
  lemma ParseIsExact(value: string, currency: Currency, whole: string, fraction: string)
    requires Denotes(value, currency, whole, fraction)
    ensures
      var exact := Exact(currency, whole, fraction);
      match ParseMinorUnits(value, currency)
      case Some(amount) => amount as real == exact && 1 <= amount <= MAX_MINOR_UNITS
      case None => exact < 1.0 || exact > MAX_MINOR_UNITS as real
  {
    ParseReads(value, currency, whole, fraction);
    DigitsAreExact(currency, whole, fraction);
    BoundedIsExact(Digits(currency, whole, fraction));
  }

  /** Whatever is accepted denotes an amount. */
  lemma AcceptedDenotes(value: string, currency: Currency)
    requires ParseMinorUnits(value, currency).Some?
    ensures exists whole, fraction :: Denotes(value, currency, whole, fraction)
  {
    var n := DigitsEnd(value);
    assert value == value[..n] + value[n..];
    if currency == JPY || n == |value| {
      assert Denotes(value, currency, value, "");
    } else {
      assert value[n..] == "." + value[n + 1..];
      assert Denotes(value, currency, value[..n], value[n + 1..]);
    }
  }

  ghost predicate Acceptable(value: string, currency: Currency, whole: string, fraction: string) {
    && Denotes(value, currency, whole, fraction)
    && 1.0 <= Exact(currency, whole, fraction) <= 999_999_999.0
  }

  /** A text is accepted exactly when it denotes an amount within bounds. */
  lemma AcceptsExactly(value: string, currency: Currency)
    ensures ParseMinorUnits(value, currency).Some? <==> exists w, f :: Acceptable(value, currency, w, f)
  {
    if ParseMinorUnits(value, currency).Some? {
      AcceptedDenotes(value, currency);
      var whole, fraction :| Denotes(value, currency, whole, fraction);
      ParseIsExact(value, currency, whole, fraction);
      assert Acceptable(value, currency, whole, fraction);
    } else if w, f :| Acceptable(value, currency, w, f) {
      ParseIsExact(value, currency, w, f);
    }
  }

  lemma {:induction false} PrintValue(n: nat)
    ensures Print(n) != "" && AllDigits(Print(n)) && Value(Print(n)) == n
    ensures n < 100 ==> |Print(n)| <= 2
  {
    if n >= 10 {
      PrintValue(n / 10);
      var s := Print(n / 10);
      assert (s + [DigitOf(n % 10)])[..|s|] == s;
    } else {
      assert Print(n)[..0] == "";
    }
  }

  /** Reading what is printed gives the amount back, for every amount the checkout can hold. */
  lemma RoundTrip(amount: int, currency: Currency)
    requires 1 <= amount <= 999_999_999
    ensures ParseMinorUnits(DisplayAmount(amount, currency), currency) == Some(amount)
  {
    var whole := Print(if currency == JPY then amount else amount / 100);
    var cents := if currency == JPY then "" else PadStart(Print(amount % 100));
    if currency == JPY { YenDenotes(amount); } else { DollarsDenote(amount); }
    ParseReads(DisplayAmount(amount, currency), currency, whole, cents);
    BoundedIsExact(Digits(currency, whole, cents));
  }

  lemma YenDenotes(amount: nat)
    ensures Denotes(DisplayAmount(amount, JPY), JPY, Print(amount), "")
    ensures AllDigits(Print(amount)) && Value(Print(amount)) == amount
  {
    PrintValue(amount);
  }

  lemma DollarsDenote(amount: nat)
    ensures
      var whole, cents := Print(amount / 100), PadStart(Print(amount % 100));
      && Denotes(DisplayAmount(amount, USD), USD, whole, cents)
      && AllDigits(Digits(USD, whole, cents)) && Value(Digits(USD, whole, cents)) == amount
  {
    var whole, cents := Print(amount / 100), PadStart(Print(amount % 100));
    PrintValue(amount / 100);
    CentsValue(amount % 100);
    assert whole + "." + cents == whole + ("." + cents);
    ValueAppend(whole, cents);
    assert Tens(2) == 100 by { assert Tens(0) == 1 && Tens(1) == 10; }
  }

  lemma CentsValue(cents: nat)
    requires cents < 100
    ensures var text := PadStart(Print(cents)); |text| == 2 && AllDigits(text) && Value(text) == cents
  {
    PrintValue(cents);
    LeadingZero(Print(cents));
  }

  /** Printing gives different texts for different amounts. */
  lemma PrintedApart(a: int, b: int, currency: Currency)
    requires 1 <= a <= 999_999_999 && 1 <= b <= 999_999_999
    requires DisplayAmount(a, currency) == DisplayAmount(b, currency)
    ensures a == b
  {
    RoundTrip(a, currency);
    RoundTrip(b, currency);
  }

  lemma {:induction false} NoLeadingZero(n: nat)
    ensures Print(n) != "" && (|Print(n)| > 1 ==> Print(n)[0] != '0')
    ensures n > 0 ==> Print(n)[0] != '0'
  {
    if n >= 10 {
      NoLeadingZero(n / 10);
    }
  }

  /** Amounts are printed in plain digits without leading zeros, dollars with exactly two digits of cents. */
  lemma PrintedForm(amount: nat)
    ensures
      var yen := DisplayAmount(amount, JPY);
      && AllDigits(yen) && Value(yen) == amount && (|yen| > 1 ==> yen[0] != '0')
    ensures
      exists whole, cents ::
        && DisplayAmount(amount, USD) == whole + "." + cents
        && AllDigits(whole) && Value(whole) == amount / 100 && whole != "" && (|whole| > 1 ==> whole[0] != '0')
        && AllDigits(cents) && Value(cents) == amount % 100 && |cents| == 2
  {
    NoLeadingZero(amount);
    YenDenotes(amount);
    NoLeadingZero(amount / 100);
    PrintValue(amount / 100);
    CentsValue(amount % 100);
    var whole, cents := Print(amount / 100), PadStart(Print(amount % 100));
    assert DisplayAmount(amount, USD) == whole + "." + cents;
  }
}
