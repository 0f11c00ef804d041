/** Shared vocabulary of the trading bot model: optional values, the exceptions
    the Python code raises (as error values), the three trading actions, the
    dynamically typed values handed to the exchange and to notifications, and
    the decimal text conversions that Python's int(), float() and "%d" perform. */
module Common {

  datatype Option<T> = None | Some(value: T)

  /** The exception classes the modelled code raises. */
  datatype Error =
    | NotImplementedError(msg: string)
    | AttributeError(msg: string)
    | RuntimeError(msg: string)
    | TypeError(msg: string)
    | ValueError
    | IndexError
    | DivisionByZero
    /** decimal.InvalidOperation: 0/0, or a Decimal made from the text 'None'. */
    | InvalidOperation

  /** Decimal(None). */
  const DecimalOfNone: Error := TypeError("conversion from NoneType to Decimal is not supported")

  /** Reading an instance attribute that was never assigned, as a hook does with
      an order that was never placed. */
  function NoAttribute(cls: string, attr: string): Error
  {
    AttributeError("'" + cls + "' object has no attribute '" + attr + "'")
  }

  /** A value, or the exception raised instead; usable with `:-`. */
  datatype Result<T> = Ok(value: T) | Err(error: Error) {
    predicate IsFailure() { Err? }

    function PropagateFailure<U>(): Result<U>
      requires Err?
    {
      Err(error)
    }

    function Extract(): T
      requires Ok?
    {
      value
    }
  }

  /** The end of a step that returns nothing: normally, or by raising. */
  datatype Outcome = Pass | Fail(error: Error) {
    predicate IsFailure() { Fail? }

    function PropagateFailure(): Outcome
      requires Fail?
    {
      this
    }
  }

  /** The signal a strategy produces (strategies/strategy.py). */
  datatype Action = Long | Short | Nothing

  /** The enum values of Actions: LONG = 1, SHORT = -1, NOTHING = 0. */
  function ActionValue(a: Action): (v: int)
    ensures -1 <= v <= 1
    ensures (v == 1 <==> a == Long) && (v == -1 <==> a == Short) && (v == 0 <==> a == Nothing)
  {
    match a
    case Long => 1
    case Short => -1
    case Nothing => 0
  }

  /** A Python value as the exchange or a notification receives it:
      None, a number, or the unconverted text of an environment variable. */
  datatype Value = NoneValue | Num(x: real) | Text(s: string)

  function OptionValue(o: Option<real>): Value
  {
    match o
    case None => NoneValue
    case Some(x) => Num(x)
  }

  function Pow10(n: nat): (r: nat)
    ensures r >= 1
  {
    if n == 0 then 1 else 10 * Pow10(n - 1)
  }

  // ---------------------------------------------------------------------------
  // Decimal digit strings

  predicate IsDigit(c: char) { '0' <= c <= '9' }

  predicate AllDigits(s: string) { forall i :: 0 <= i < |s| ==> IsDigit(s[i]) }

  function DigitChar(d: nat): (c: char)
    requires d < 10
    ensures IsDigit(c) && c as int - '0' as int == d
  {
    ('0' as int + d) as char
  }

  /** The number a string of decimal digits denotes. */
  function DigitsValue(s: string): nat
    requires AllDigits(s)
  {
    if s == [] then 0 else DigitsValue(s[..|s| - 1]) * 10 + (s[|s| - 1] as int - '0' as int)
  }

  /** Python's "%d" of a natural number: its shortest decimal digits. */
  function NatToString(n: nat): (s: string)
    ensures |s| > 0 && AllDigits(s)
  {
    if n < 10 then [DigitChar(n)] else NatToString(n / 10) + [DigitChar(n % 10)]
  }

  lemma {:induction false} NatToStringValue(n: nat)
    ensures DigitsValue(NatToString(n)) == n
  {
    if n >= 10 {
      var s := NatToString(n);
      assert s[..|s| - 1] == NatToString(n / 10);
      NatToStringValue(n / 10);
    }
  }

  /** Python's "%d" of an integer. */
  function IntToString(i: int): (s: string)
    ensures |s| > 0
  {
    if i < 0 then "-" + NatToString(-i) else NatToString(i)
  }

  /** Python's int() on a string of an optional sign and decimal digits;
      None stands for the ValueError it raises otherwise. */
  function ParseNat(s: string): (r: Option<nat>)
    ensures r.Some? <==> |s| > 0 && AllDigits(s)
  {
    if |s| > 0 && AllDigits(s) then Some(DigitsValue(s)) else None
  }

  function ParseInt(s: string): (r: Option<int>)
    ensures r.Some? ==> |s| > 0
  {
    if |s| > 0 && (s[0] == '-' || s[0] == '+') then
      match ParseNat(s[1..])
      case None => None
      case Some(n) => Some(if s[0] == '-' then -(n as int) else n as int)
    else
      match ParseNat(s)
      case None => None
      case Some(n) => Some(n)
  }

  /** int() undoes "%d". */
  lemma ParseIntToString(i: int)
    ensures ParseInt(IntToString(i)) == Some(i)
  {
    if i < 0 {
      var t := IntToString(i);
      assert t[0] == '-' && t[1..] == NatToString(-i);
      NatToStringValue(-i);
      assert ParseNat(t[1..]) == Some(-i);
    } else {
      var t := IntToString(i);
      assert t == NatToString(i) && IsDigit(t[0]) && t[0] != '-' && t[0] != '+';
      NatToStringValue(i);
      assert ParseNat(t) == Some(i);
    }
  }

  /** int() of an environment variable's value: int(None) raises TypeError,
      text that is not an integer raises ValueError. */
  function PyInt(v: Option<string>): (r: Result<int>)
    ensures v.None? ==> r.Err? && r.error.TypeError?
    ensures v.Some? ==> r == (if ParseInt(v.value).Some? then Ok(ParseInt(v.value).value) else Err(ValueError))
  {
    match v
    case None => Err(TypeError("int() argument must be a string, a bytes-like object or a real number, not 'NoneType'"))
    case Some(s) =>
      match ParseInt(s)
      case None => Err(ValueError)
      case Some(i) => Ok(i)
  }

  /** An environment variable set to "%d" of i reads back as i. */
  lemma PyIntOfIntToString(i: int)
    ensures PyInt(Some(IntToString(i))) == Ok(i)
  {
    ParseIntToString(i);
  }

  /** float() of a string; text that is not a decimal number raises ValueError. */
  function PyFloat(s: string): (r: Result<real>)
    ensures r.Ok? <==> ParseDecimal(s).Some?
    ensures r.Ok? ==> r.value == ParseDecimal(s).value
    ensures r.Err? ==> r.error == ValueError
  {
    match ParseDecimal(s)
    case None => Err(ValueError)
    case Some(x) => Ok(x)
  }

  function IndexOf(s: string, c: char): (r: Option<nat>)
    ensures r.Some? ==> r.value < |s| && s[r.value] == c && c !in s[..r.value]
    ensures r.None? ==> c !in s
  {
    if s == [] then None
    else if s[0] == c then Some(0)
    else
      match IndexOf(s[1..], c)
      case None => None
      case Some(k) => Some(k + 1)
  }

  /** Python's float() on plain decimal notation: an optional sign, digits,
      and optionally a point followed by digits, with at least one digit in all.
      None stands for the ValueError float() raises otherwise. */
  function ParseDecimal(s: string): (r: Option<real>)
  {
    var neg := |s| > 0 && s[0] == '-';
    var body := if |s| > 0 && (s[0] == '-' || s[0] == '+') then s[1..] else s;
    var ip := match IndexOf(body, '.') case None => body case Some(k) => body[..k];
    var fp := match IndexOf(body, '.') case None => "" case Some(k) => body[k + 1..];
    if AllDigits(ip) && AllDigits(fp) && |ip| + |fp| > 0 then
      var mag := DigitsValue(ip) as real + DigitsValue(fp) as real / Pow10(|fp|) as real;
      Some(if neg then -mag else mag)
    else
      None
  }

  /** float() reads "%d" of any integer back as that integer. */
  lemma ParseDecimalOfInt(i: int)
    ensures ParseDecimal(IntToString(i)) == Some(i as real)
  {
    var s := IntToString(i);
    var m: nat := if i < 0 then -i else i;
    var body := NatToString(m);
    if i < 0 {
      assert s[1..] == body;
    }
    assert IndexOf(body, '.') == None;
    NatToStringValue(m);
  }

  /** ASCII upper-casing, as Python's str.upper() acts on currency codes. */
  function Upper(s: string): (r: string)
    ensures |r| == |s|
    ensures forall i :: 0 <= i < |s| ==> (if 'a' <= s[i] <= 'z' then r[i] == (s[i] as int - 32) as char else r[i] == s[i])
  {
    if s == [] then ""
    else [if 'a' <= s[0] <= 'z' then (s[0] as int - 32) as char else s[0]] + Upper(s[1..])
  }
}
