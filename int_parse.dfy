/** An abstract model of `str::parse::<i32>`: an optional '+' or '-' followed
    by one or more decimal digits, whose value must fit in an `i32`. */
module IntParse {
  import opened Ints
  import opened Wrappers

  /** The kind carried by a `ParseIntError`. */
  datatype ParseIntError = Empty | InvalidDigit | PosOverflow | NegOverflow

  /** The text a `ParseIntError` displays as. */
  function Message(e: ParseIntError): string
  {
    match e
    case Empty => "cannot parse integer from empty string"
    case InvalidDigit => "invalid digit found in string"
    case PosOverflow => "number too large to fit in target type"
    case NegOverflow => "number too small to fit in target type"
  }

  predicate IsDigit(c: char) {
    '0' <= c <= '9'
  }

  predicate AllDigits(s: string) {
    forall k :: 0 <= k < |s| ==> IsDigit(s[k])
  }

  function DigitValue(c: char): nat
    requires IsDigit(c)
  {
    c as int - '0' as int
  }

  function DigitChar(d: nat): (c: char)
    requires d < 10
    ensures IsDigit(c) && DigitValue(c) == d
  {
    ('0' as int + d) as char
  }

  /** The value of a string of decimal digits, most significant first. */
  function DigitsValue(s: string): nat
    requires AllDigits(s)
  {
    if s == [] then 0 else 10 * DigitsValue(s[..|s| - 1]) + DigitValue(s[|s| - 1])
  }

  /** Splits off a leading sign: whether it is '-', and the rest. */
  function SplitSign(s: string): (parts: (bool, string))
    requires s != []
    ensures parts.1 == if s[0] == '-' || s[0] == '+' then s[1..] else s
  {
    if s[0] == '-' then (true, s[1..])
    else if s[0] == '+' then (false, s[1..])
    else (false, s)
  }

  /** `s.parse::<i32>()`. */
  function Parse(s: string): (r: Result<Int32, ParseIntError>)
    ensures r == Err(Empty) <==> s == []
    ensures r.Ok? ==> (IsDigit(s[0]) || s[0] == '+' || s[0] == '-') && AllDigits(s[1..])
    ensures r.Ok? && s[0] == '-' ==> r.value <= 0
    ensures r.Ok? && s[0] != '-' ==> r.value >= 0
  {
    if s == [] then Err(Empty)
    else
      var (negative, digits) := SplitSign(s);
      if digits == [] || !AllDigits(digits) then Err(InvalidDigit)
      else
        var magnitude: int := DigitsValue(digits);
        var v := if negative then -magnitude else magnitude;
        if v > I32_MAX then Err(PosOverflow)
        else if v < I32_MIN then Err(NegOverflow)
        else Ok(v as Int32)
  }

  /** The decimal digits of `n`, without leading zeros. */
  function NatDigits(n: nat): string
  {
    if n < 10 then [DigitChar(n)] else NatDigits(n / 10) + [DigitChar(n % 10)]
  }

  /** How an `i32` displays: its digits, after a '-' when it is negative. */
  function Show(n: Int32): string
  {
    if n < 0 then "-" + NatDigits(-(n as int)) else NatDigits(n as int)
  }

  lemma {:induction false} NatDigitsValue(n: nat)
    ensures NatDigits(n) != [] && AllDigits(NatDigits(n))
    ensures DigitsValue(NatDigits(n)) == n
  {
    if n >= 10 {
      NatDigitsValue(n / 10);
      var s := NatDigits(n);
      assert s[..|s| - 1] == NatDigits(n / 10);
    }
  }

  /** Parsing what an `i32` displays as gives that `i32` back. */
  lemma ParseShow(n: Int32)
    ensures Parse(Show(n)) == Ok(n)
  {
    if n < 0 {
      NatDigitsValue(-(n as int));
      assert Show(n)[1..] == NatDigits(-(n as int));
    } else {
      NatDigitsValue(n as int);
    }
  }
}
