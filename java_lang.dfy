/** The bits of the Java platform the sampler relies on: null references,
    exceptions, Integer.parseInt and the digit test of StringUtils.isNumeric. */
module JavaLang {

  /** A reference that may be null: None is Java's null. */
  datatype Option<+T> = None | Some(value: T)

  /** The classes of exception the sampler can see. Only MQException itself
      counts as "exactly MQException"; its subclasses are caught by the same
      catch clause but are different classes. */
  datatype ExnClass =
    | MQException
    | MQExceptionSubclass(name: string)
    | NumberFormatException
    | NullPointerException
    | UnsupportedEncodingException
    | OtherException(name: string)

  /** A thrown exception: its class, getMessage(), the MQ reason code
      (meaningful for MQException only) and the toString() of getCause(). */
  datatype Exn = Exn(cls: ExnClass, message: Option<string>, reason: int, cause: Option<string>)

  /** A call that either returns a value or throws. */
  datatype Result<+T> = Ok(value: T) | Thrown(exn: Exn)

  /** A void call that either returns normally or throws. */
  datatype Status = Done | Threw(exn: Exn)

  predicate IsMQException(c: ExnClass) {
    c.MQException? || c.MQExceptionSubclass?
  }

  /** A NullPointerException; its message text is not modelled. */
  const NullPointer: Exn := Exn(NullPointerException, None, 0, None)

  /** How string concatenation renders a possibly null string. */
  function Render(s: Option<string>): string {
    if s.None? then "null" else s.value
  }

  predicate IsNullOrEmpty(s: Option<string>) {
    s.None? || |s.value| == 0
  }

  predicate EndsWith(s: string, suffix: string) {
    |suffix| <= |s| && s[|s| - |suffix|..] == suffix
  }

  const MaxInt: int := 0x7fff_ffff
  const MinInt: int := -0x8000_0000

  predicate IsDigit(c: char) {
    '0' <= c <= '9'
  }

  predicate AllDigits(s: string) {
    forall i :: 0 <= i < |s| ==> IsDigit(s[i])
  }

  /** StringUtils.isNumeric: non-null, non-empty and every character a digit. */
  predicate IsNumeric(s: Option<string>): (b: bool)
    ensures b ==> !IsNullOrEmpty(s)
    ensures b ==> s.value[0] != '-' && s.value[0] != '+'
    ensures s.Some? && |s.value| > 0 && !IsDigit(s.value[0]) ==> !b
  {
    s.Some? && |s.value| > 0 && AllDigits(s.value)
  }

  /** The value of a string of decimal digits, read most significant first. */
  function DecimalValue(s: string): nat
    requires AllDigits(s)
    decreases |s|
  {
    if |s| == 0 then 0
    else 10 * DecimalValue(s[..|s| - 1]) + (s[|s| - 1] as int - '0' as int)
  }

  function Pow10(n: nat): (r: nat)
    ensures r >= 1
  {
    if n == 0 then 1 else 10 * Pow10(n - 1)
  }

  /** The exception Integer.parseInt throws for a malformed or out-of-range string. */
  function BadNumber(s: string): Exn {
    Exn(NumberFormatException, Some("For input string: \"" + s + "\""), 0, None)
  }

  /** Integer.parseInt(s) in radix 10: an optional sign followed by at least
      one digit, whose value must fit in 32 bits. */
  function ParseInt(s: Option<string>): (r: Result<int>)
    ensures r.Ok? ==> MinInt <= r.value <= MaxInt
    ensures r.Thrown? ==> r.exn.cls == NumberFormatException && r.exn.cause.None?
    ensures r.Thrown? && s.Some? ==> r.exn == BadNumber(s.value)
    ensures IsNumeric(s) ==> (r.Ok? <==> DecimalValue(s.value) <= MaxInt)
    ensures IsNumeric(s) && r.Ok? ==> r.value == DecimalValue(s.value)
    ensures s.Some? && |s.value| > 0 && !AllDigits(s.value) && s.value[0] != '-' && s.value[0] != '+'
            ==> r.Thrown?
  {
    if s.None? then
      Thrown(Exn(NumberFormatException, Some("Cannot parse null string: null"), 0, None))
    else
      var t := s.value;
      if |t| == 0 then
        Thrown(BadNumber(t))
      else if t[0] == '-' || t[0] == '+' then
        if |t| == 1 || !AllDigits(t[1..]) then
          Thrown(BadNumber(t))
        else
          var magnitude: int := DecimalValue(t[1..]);
          var v: int := if t[0] == '-' then -magnitude else magnitude;
          if MinInt <= v <= MaxInt then Ok(v) else Thrown(BadNumber(t))
      else if AllDigits(t) && DecimalValue(t) <= MaxInt then
        Ok(DecimalValue(t))
      else
        Thrown(BadNumber(t))
  }

  function DigitChar(d: nat): (c: char)
    requires d < 10
    ensures IsDigit(c) && c as int - '0' as int == d
  {
    ('0' as int + d) as char
  }

  /** The decimal digits of n, without leading zeros. */
  function Digits(n: nat): (s: string)
    ensures |s| > 0 && AllDigits(s)
    ensures s[0] != '-' && s[0] != '+'
    decreases n
  {
    if n < 10 then [DigitChar(n)] else Digits(n / 10) + [DigitChar(n % 10)]
  }

  /** Integer.toString(n): the reference rendering ParseInt is checked against. */
  function IntToString(n: int): string {
    if n < 0 then "-" + Digits(-n) else Digits(n)
  }

  lemma {:induction false} DigitsValue(n: nat)
    ensures DecimalValue(Digits(n)) == n
  {
    if n >= 10 {
      DigitsValue(n / 10);
      var s := Digits(n);
      assert s[..|s| - 1] == Digits(n / 10);
    }
  }

  /** Every 32-bit integer survives Integer.toString followed by Integer.parseInt. */
  lemma {:induction false} ParseIntOfToString(n: int)
    requires MinInt <= n <= MaxInt
    ensures ParseInt(Some(IntToString(n))) == Ok(n)
  {
    if n < 0 {
      DigitsValue(-n);
      var t := IntToString(n);
      assert t[1..] == Digits(-n);
    } else {
      DigitsValue(n);
    }
  }

  /** A string of digits with no leading zero is worth at least 10^(length - 1). */
  lemma {:induction false} DecimalValueLowerBound(s: string)
    requires |s| > 0 && AllDigits(s) && s[0] != '0'
    ensures DecimalValue(s) >= Pow10(|s| - 1)
  {
    if |s| > 1 {
      var init := s[..|s| - 1];
      assert init[0] == s[0];
      DecimalValueLowerBound(init);
    }
  }

  /** Eleven or more digits without a leading zero never fit in an int, so
      Integer.parseInt throws on such a string although StringUtils.isNumeric accepts it. */
  lemma LongNumeralOverflows(s: string)
    requires |s| >= 11 && AllDigits(s) && s[0] != '0'
    ensures IsNumeric(Some(s))
    ensures ParseInt(Some(s)) == Thrown(BadNumber(s))
  {
    DecimalValueLowerBound(s);
    PowMonotone(10, |s| - 1);
    assert Pow10(10) == 10000000000;
  }

  lemma {:induction false} PowMonotone(m: nat, n: nat)
    requires m <= n
    ensures Pow10(m) <= Pow10(n)
  {
    if m < n {
      PowMonotone(m, n - 1);
    }
  }
}
