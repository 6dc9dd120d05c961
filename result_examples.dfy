/** result_examples.rs: recoverable errors with `Result`, the combinators
    `and_then`, `map`, `map_err`, `ok`, `ok_or` and `transpose`, and the `?`
    operator (Dafny's `:-`). */
module ResultExamples {
  import opened Ints
  import opened Wrappers
  import opened IntParse

  /** `parse_and_double`: parse, then double with `and_then`. `n * 2` panics
      on `i32` overflow. */
  function ParseAndDouble(s: string): (r: Result<Int32, ParseIntError>)
    requires Parse(s).Ok? ==> InI32(2 * Parse(s).value as int)
    ensures r.Ok? <==> Parse(s).Ok?
    ensures r.Ok? ==> r.value as int == 2 * Parse(s).value as int
    ensures r.Err? ==> r.error == Parse(s).error
  {
    Parse(s).AndThen((n: Int32) requires InI32(2 * n as int) => Ok(n * 2))
  }

  const PARSE_ERROR_PREFIX: string := "Parse error: "

  /** `parse_with_custom_error`: add 10 to a parsed value with `map`, and turn
      a parse error into a message with `map_err`. `n + 10` panics on overflow. */
  function ParseWithCustomError(s: string): (r: Result<Int32, string>)
    requires Parse(s).Ok? ==> InI32(Parse(s).value as int + 10)
    ensures r.Ok? <==> Parse(s).Ok?
    ensures r.Ok? ==> r.value as int == Parse(s).value as int + 10
    ensures r.Err? ==> r.error == PARSE_ERROR_PREFIX + Message(Parse(s).error)
  {
    Parse(s)
      .Map((n: Int32) requires InI32(n as int + 10) => n + 10)
      .MapErr((e: ParseIntError) => PARSE_ERROR_PREFIX + Message(e))
  }

  /** `get_config_value`: a one-entry configuration table. */
  function GetConfigValue(key: string): (r: Result<string, string>)
    ensures r == Ok("admin") <==> key == "username"
    ensures r.Err? <==> key != "username"
    ensures r.Err? ==> r.error == "Key not found"
  {
    if key == "username" then Ok("admin") else Err("Key not found")
  }

  /** `process_two_numbers`: parse both with `?` and add. The first failure
      is returned as it is; `n + m` panics on overflow. */
  function ProcessTwoNumbers(a: string, b: string): (r: Result<Int32, ParseIntError>)
    requires Parse(a).Ok? && Parse(b).Ok? ==> InI32(Parse(a).value as int + Parse(b).value as int)
    ensures Parse(a).Err? ==> r == Err(Parse(a).error)
    ensures Parse(a).Ok? && Parse(b).Err? ==> r == Err(Parse(b).error)
    ensures Parse(a).Ok? && Parse(b).Ok? ==> r.Ok? && r.value as int == Parse(a).value as int + Parse(b).value as int
  {
    var numA :- Parse(a);
    var numB :- Parse(b);
    Ok(numA + numB)
  }

  /** When `a` does not parse, `b` is never looked at. */
  lemma ProcessShortCircuits(a: string, b1: string, b2: string)
    requires Parse(a).Err?
    ensures ProcessTwoNumbers(a, b1) == ProcessTwoNumbers(a, b2)
  {
  }

  /** `handle_result_with_match`: the success value, or 0 after reporting the error. */
  function HandleResultWithMatch(value: Result<Int32, string>): (n: Int32)
    ensures value.Ok? ==> n == value.value
    ensures value.Err? ==> n == 0
  {
    match value
    case Ok(n) => n
    case Err(_) => 0
  }

  /** `result_to_option`: `r.ok()`. */
  function ResultToOption(r: Result<Int32, string>): (o: Option<Int32>)
    ensures o.Some? <==> r.Ok?
    ensures r.Ok? ==> o.value == r.value
  {
    r.ToOption()
  }

  const NONE_MESSAGE: string := "Value was None"

  /** `option_to_result`: `o.ok_or("Value was None")`. */
  function OptionToResult(o: Option<Int32>): (r: Result<Int32, string>)
    ensures r.Ok? <==> o.Some?
    ensures o.Some? ==> r.value == o.value
    ensures o.None? ==> r.error == NONE_MESSAGE
  {
    o.OkOr(NONE_MESSAGE)
  }

  /** An `Option` survives the trip through `Result` and back. */
  lemma OptionRoundTrip(o: Option<Int32>)
    ensures ResultToOption(OptionToResult(o)) == o
  {
  }

  /** The other way round only the errors whose message is "Value was None"
      survive: `ok()` forgets every other error message. */
  lemma ResultRoundTrip(r: Result<Int32, string>)
    ensures OptionToResult(ResultToOption(r)) == r <==> r.Ok? || r.error == NONE_MESSAGE
  {
  }

  /** `parse_optional_number`: parse a present string, and turn the
      `Option<Result<..>>` inside out with `transpose`. */
  function ParseOptionalNumber(s: Option<string>): (r: Result<Option<Int32>, ParseIntError>)
    ensures s.None? ==> r == Ok(None)
    ensures s.Some? && Parse(s.value).Ok? ==> r == Ok(Some(Parse(s.value).value))
    ensures s.Some? && Parse(s.value).Err? ==> r == Err(Parse(s.value).error)
  {
    Transpose(s.Map(Parse))
  }

  /** `main`, example 4: "21" parses and doubles to 42. */
  lemma ParseAndDoubleExample()
    ensures Parse("21") == Ok(21)
    ensures ParseAndDouble("21") == Ok(42)
  {
    assert Show(21) == "21";
    ParseShow(21);
  }

  /** `main`, example 5: "42" parses and gains 10. */
  lemma ParseWithCustomErrorExample()
    ensures Parse("42") == Ok(42)
    ensures ParseWithCustomError("42") == Ok(52)
  {
    assert Show(42) == "42";
    ParseShow(42);
  }

  /** `main`, example 5: "not_a_number" fails with the prefixed message. */
  lemma ParseWithCustomErrorFailureExample()
    ensures Parse("not_a_number") == Err(InvalidDigit)
    ensures ParseWithCustomError("not_a_number") == Err(PARSE_ERROR_PREFIX + "invalid digit found in string")
  {
    var bad := "not_a_number";
    assert SplitSign(bad).1 == bad && !IsDigit(bad[0]);
  }

  /** `main`, example 6: the defaults of `unwrap_or` and `unwrap_or_else`. */
  lemma ConfigDefaultsExample()
    ensures GetConfigValue("username").UnwrapOr("guest") == "admin"
    ensures GetConfigValue("missing").UnwrapOrElse((e: string) => "default") == "default"
  {
  }

  /** `main`, example 7: "5" and "10" add up to 15. */
  lemma ProcessTwoNumbersExample()
    ensures Parse("5") == Ok(5) && Parse("10") == Ok(10)
    ensures ProcessTwoNumbers("5", "10") == Ok(15)
  {
    assert Show(5) == "5";
    ParseShow(5);
    assert Show(10) == "10";
    ParseShow(10);
  }

  /** `main`, examples 8 and 9. */
  lemma MatchAndConversionExamples()
    ensures HandleResultWithMatch(Ok(42)) == 42
    ensures HandleResultWithMatch(Err("Something went wrong")) == 0
    ensures ResultToOption(Ok(100)) == Some(100)
    ensures OptionToResult(Some(200)) == Ok(200)
    ensures OptionToResult(None) == Err("Value was None")
  {
  }

  /** `main`, example 10: `Some("123")` transposes to `Ok(Some(123))`. */
  lemma ParseOptionalNumberExample()
    ensures ParseOptionalNumber(Some("123")) == Ok(Some(123))
    ensures ParseOptionalNumber(None) == Ok(None)
  {
    assert Show(123) == "123";
    ParseShow(123);
  }
}
