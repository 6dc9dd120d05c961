# learn-rust helpers in Dafny

The repository is a set of narrated Rust teaching scripts about ownership,
borrowing, lifetimes, `Option` and `Result`. Every script is a handful of
small helper functions plus `demonstrate_*` drivers that print what the
helpers return. This project models those helpers and drivers and proves
what the scripts show about them:

- which argument `longest` returns;
- that `first_word` is the part before the first space;
- that `add_world` and `push_str` append, keeping the old contents as a prefix;
- that `double_values` doubles each element in place;
- that `sum_vector` adds up a vector it does not change;
- how the `Option`/`Result` combinators and `?` route values and errors.

Representation:

- A Rust `&str` is a Dafny `string`; each character stands for one byte, so the text is ASCII.
- A Rust `String` is the class `Text.OwnedString`, and `push_str`/`push` update it in place.
- A `Vec<i32>` is an `array<Ints.Int32>`; none of the modelled operations resizes it.
- `i32` and `u32` are newtypes. Their arithmetic is range-checked, which matches a debug build, where overflow panics. Each helper that can overflow requires that it does not.
- `&mut x` on an `i32` local is the `Places.Cell` that holds the local, so a write through the reference is visible through `x`.
- `&x` is a `Places.Ref` with a `const` target.
- `&mut v[0]` is a `MutableBorrowing.Slot` naming one array element.
- A function that only borrows its argument is a Dafny function with a `reads` frame, so it cannot change what it borrows. A function that borrows mutably is a method with a `modifies` clause.
- `str::parse::<i32>` is the abstract parser `IntParse.Parse`: an optional sign, then decimal digits, and the value must fit in an `i32`.
- `?` is Dafny's `:-` on `Wrappers.Result`.
- `first_word` and `get_first_word` are the same byte-scanning loop written in two files. Each gets its own method, and both are proved equal to `Text.PrefixBefore(s, ' ')`.

The repository contains no ownership or borrow checker, and none is modelled. Move, borrow and lifetime rules are enforced by the Rust compiler and are only exercised by these scripts.

## Model

| member | source | states |
|---|---|---|
| Lifetimes.Longest | examples/ownership/05_lifetimes.rs:14-16 | the result is one of the two arguments and at least as long as each; `x` comes back only when strictly longer, and a tie goes to `y` |
| Lifetimes.FirstWord | examples/ownership/05_lifetimes.rs:32-42 | the byte scan returns a prefix of `s` without a space that stops just before the first space, or at the end of `s`; this is `PrefixBefore(s, ' ')` |
| Lifetimes.AnnounceAndReturn | examples/ownership/05_lifetimes.rs:56-59 | the announcement is returned as it is |
| Lifetimes.AnnounceIgnoresValue | examples/ownership/05_lifetimes.rs:56-59 | the result does not depend on `value` |
| Lifetimes.FirstChar | examples/ownership/05_lifetimes.rs:74-76 | for a non-empty string: a one-byte prefix holding the first byte |
| Lifetimes.ExplicitLifetime | examples/ownership/05_lifetimes.rs:79-81 | for a non-empty string: a one-byte slice holding the first byte |
| Lifetimes.ElisionAgrees | examples/ownership/05_lifetimes.rs:78-81 | elided and explicit lifetimes give the same result, `s[..1]` |
| Lifetimes.Excerpt.GetText | examples/ownership/05_lifetimes.rs:99-101 | returns the stored text |
| Lifetimes.Excerpt.Announce | examples/ownership/05_lifetimes.rs:103-106 | returns the stored text, whatever the announcement |
| Lifetimes.ExcerptRoundTrip | examples/ownership/05_lifetimes.rs:94-107 | building an excerpt and reading it back gives the text; both getters agree |
| Lifetimes.DemonstrateBasicLifetime | examples/ownership/05_lifetimes.rs:18-24 | "long string" beats "short" |
| Lifetimes.DemonstrateLifetimeAnnotation | examples/ownership/05_lifetimes.rs:44-49 | the first word of "hello world" is "hello", and the sentence is still whole |
| Lifetimes.DemonstrateMultipleLifetimes | examples/ownership/05_lifetimes.rs:61-67 | the result is "Important!" |
| Lifetimes.DemonstrateElision | examples/ownership/05_lifetimes.rs:83-87 | both forms give "h" for "hello" |
| Lifetimes.DemonstrateStructLifetime | examples/ownership/05_lifetimes.rs:109-119 | the first '.'-segment of the novel is "Call me Ishmael", and both getters return it |
| Text.PrefixBefore | examples/ownership/05_lifetimes.rs:110-111 | the first item of `split(c)`: a prefix without `c` that is followed by `c`, or is all of `s` |
| Text.PrefixBeforeUnique | examples/ownership/05_lifetimes.rs:35-41 | any prefix free of `c` that ends at a `c` or at the end of the string is `PrefixBefore` |
| Text.Slice | examples/ownership/04_string_types.rs:90-92 | for `lo <= hi <= len`: `hi - lo` bytes, byte `k` being `s[lo + k]` |
| Text.SliceJoin | examples/ownership/04_string_types.rs:90-92 | `&s[..i]` followed by `&s[i..]` is `s` |
| Text.OwnedString.From | examples/ownership/04_string_types.rs:69-71 | `from`, `to_string` and `to_owned` copy the text exactly |
| Text.OwnedString.PushStr | examples/ownership/04_string_types.rs:27 | the new contents are the old contents followed by `t` |
| Text.OwnedString.Push | examples/ownership/04_string_types.rs:28 | the new contents are the old contents followed by one byte |
| Text.OwnedString.AsStr | examples/ownership/04_string_types.rs:76-78 | `as_str` exposes the same bytes as the `String` |
| StringTypes.CreateGreeting | examples/ownership/04_string_types.rs:105-107 | "Hello, ", then the name, then "!"; 8 bytes longer than the name |
| StringTypes.GreetedName | examples/ownership/04_string_types.rs:105-107 | recognises only text of the greeting's shape |
| StringTypes.GreetingRoundTrip | examples/ownership/04_string_types.rs:105-107 | the name can be read back from its greeting |
| StringTypes.GreetingsAreInjective | examples/ownership/04_string_types.rs:105-107 | different names give different greetings |
| StringTypes.GetFirstWord | examples/ownership/04_string_types.rs:110-120 | a prefix without a space ending just before the first space, or all of `s` |
| StringTypes.DemonstrateStringTypes | examples/ownership/04_string_types.rs:8-19 | a `&str` borrowed from a `String` shows its contents |
| StringTypes.DemonstrateMutability | examples/ownership/04_string_types.rs:25-34 | "hello", then `push_str(" world")`, then `push('!')`, gives "hello world!" |
| StringTypes.DemonstrateConversions | examples/ownership/04_string_types.rs:67-81 | the three conversions copy exactly; `&s` and `as_str()` agree |
| StringTypes.DemonstrateSlicing | examples/ownership/04_string_types.rs:87-98 | on "hello world", `[0..5]` is "hello", `[6..11]` is "world", and `[..]` is the whole string |
| StringTypes.DemonstrateReturnTypes | examples/ownership/04_string_types.rs:122-130 | "Hello, Alice!", and the first word of "hello world rust" is "hello" |
| MutableBorrowing.AddWorld | examples/ownership/03_mutable_borrowing.rs:8-10 | the borrowed string becomes its old contents followed by ", world" |
| MutableBorrowing.DoubledAt | examples/ownership/03_mutable_borrowing.rs:62-66 | the doubled vector has the same length, and element `k` is twice the old element `k` |
| MutableBorrowing.DoubledFromElements | examples/ownership/03_mutable_borrowing.rs:62-66 | a same-length vector whose every element is twice the old one is the doubled vector |
| MutableBorrowing.SumOfDoubled | examples/ownership/03_mutable_borrowing.rs:62-66 | doubling every element doubles the sum `sum_vector` computes |
| MutableBorrowing.DoubleValues | examples/ownership/03_mutable_borrowing.rs:62-66 | when no element overflows, the vector is doubled in place, element by element, with its length kept |
| MutableBorrowing.DoubledFirstFive | examples/ownership/03_mutable_borrowing.rs:69-72 | [1,2,3,4,5] doubles to [2,4,6,8,10] |
| MutableBorrowing.GetFirstMut | examples/ownership/03_mutable_borrowing.rs:80-82 | for a non-empty vector, the exclusive borrow of element 0 |
| MutableBorrowing.WriteThrough | examples/ownership/03_mutable_borrowing.rs:89 | a write through the borrow changes that element only |
| MutableBorrowing.DemonstrateMutableBorrow | examples/ownership/03_mutable_borrowing.rs:12-18 | "hello" becomes "hello, world" |
| MutableBorrowing.DemonstrateSingleMutableBorrow | examples/ownership/03_mutable_borrowing.rs:24-39 | two successive exclusive borrows see "hello world", then "hello world!" |
| MutableBorrowing.DemonstrateBorrowRules | examples/ownership/03_mutable_borrowing.rs:45-56 | the shared borrows read "hello"; the later exclusive one leaves "hello world" |
| MutableBorrowing.DemonstrateVectorMutation | examples/ownership/03_mutable_borrowing.rs:68-74 | [1,2,3,4,5] becomes [2,4,6,8,10] |
| MutableBorrowing.DemonstrateReturnMutRef | examples/ownership/03_mutable_borrowing.rs:84-92 | writing 99 through `get_first_mut` turns [10,20,30] into [99,20,30] |
| Places.Ref.constructor | examples/ownership/02_borrowing.rs:79-80 | `&x` refers to `x`: dereferencing gives `x` |
| Places.Cell.constructor | examples/dereference_examples.rs:26-29 | a mutable local starts with its initial value |
| Dereference.DemonstrateBasicDeref | examples/dereference_examples.rs:8-19 | `*r == x == 5` and `*r + 10 == 15` |
| Dereference.DemonstrateMutableDeref | examples/dereference_examples.rs:25-38 | `*r = 10; *r += 5` through `r = &mut x` leaves `x == 15` |
| Dereference.DemonstrateDerefComparison | examples/dereference_examples.rs:44-59 | `*r == y`, `*r == 5` and `*r > 3` all hold |
| Dereference.DemonstrateDerefInLoops | examples/dereference_examples.rs:65-76 | the `iter_mut` loop doubles [1..5] in place to [2,4,6,8,10] |
| Dereference.DemonstrateMultipleDeref | examples/dereference_examples.rs:82-92 | `**r2 == *r1 == x` |
| Dereference.DemonstrateAutoDeref | examples/dereference_examples.rs:98-111 | `r.len()` and `(*r).len()` agree (5) |
| Dereference.MatchFive | examples/dereference_examples.rs:122-125 | "five" exactly for 5, "something else" otherwise |
| Dereference.ReplaceTen | examples/dereference_examples.rs:131-137 | the value becomes 20 when it was 10, and is unchanged otherwise |
| Dereference.DemonstrateDerefPattern | examples/dereference_examples.rs:117-140 | `*r` matches five, and `y` ends up 20 |
| Borrowing.CalculateLength | examples/ownership/02_borrowing.rs:8-11 | the byte length of the borrowed string, read without changing it |
| Borrowing.SumFrom | examples/ownership/02_borrowing.rs:63 | the running `i32` fold adds the rest of the vector to the total so far |
| Borrowing.SumVector | examples/ownership/02_borrowing.rs:62-64 | the sum of the borrowed vector when no running total overflows, read without changing it |
| Borrowing.SumSnoc | examples/ownership/02_borrowing.rs:63 | adding one more element at the end adds it to the sum |
| Borrowing.SumOfFirstFive | examples/ownership/02_borrowing.rs:67-68 | [1,2,3,4,5] sums to 15 without overflow |
| Borrowing.DemonstrateBasicBorrow | examples/ownership/02_borrowing.rs:13-19 | "hello" has length 5 and is still valid afterwards |
| Borrowing.DemonstrateMultipleBorrows | examples/ownership/02_borrowing.rs:30-41 | three simultaneous shared borrows and the owner all see "hello" |
| Borrowing.DemonstrateValidReferences | examples/ownership/02_borrowing.rs:47-56 | a borrow in an inner scope ends there, and the owner stays "hello" |
| Borrowing.DemonstrateVectorBorrow | examples/ownership/02_borrowing.rs:66-72 | the vector is unchanged, and its sum is 15 |
| Borrowing.DemonstrateDereference | examples/ownership/02_borrowing.rs:78-88 | `*r == x` for `r = &x` |
| IntParse.Parse | result_examples.rs:84-85 | empty input is the Empty error; success needs an optional sign followed by digits, and the sign decides the sign of the value |
| IntParse.DigitChar | result_examples.rs:84 | a decimal digit character with the given value |
| IntParse.NatDigitsValue | result_examples.rs:84 | the decimal digits of `n` are non-empty digits whose value is `n` |
| IntParse.ParseShow | result_examples.rs:84-85 | every `i32` parses back from its decimal form |
| ResultExamples.ParseAndDouble | result_examples.rs:53-55 | Ok(2n) exactly when the parse gives n; otherwise the parse error |
| ResultExamples.ParseWithCustomError | result_examples.rs:61-65 | Ok(n+10) exactly when the parse gives n; otherwise "Parse error: " followed by the error's message |
| ResultExamples.GetConfigValue | result_examples.rs:71-77 | Ok("admin") if and only if the key is "username"; otherwise Err("Key not found") |
| ResultExamples.ProcessTwoNumbers | result_examples.rs:83-87 | `a`'s error if `a` fails; `b`'s error if only `b` fails; otherwise Ok of the sum |
| ResultExamples.ProcessShortCircuits | result_examples.rs:84 | once `a` fails, `b` makes no difference |
| ResultExamples.HandleResultWithMatch | result_examples.rs:93-101 | the success value, or 0 for any error |
| ResultExamples.ResultToOption | result_examples.rs:107-109 | Ok(n) becomes Some(n), and any error becomes None |
| ResultExamples.OptionToResult | result_examples.rs:111-113 | Some(n) becomes Ok(n), and None becomes Err("Value was None") |
| ResultExamples.OptionRoundTrip | result_examples.rs:107-113 | `result_to_option(option_to_result(o)) == o` |
| ResultExamples.ResultRoundTrip | result_examples.rs:107-113 | the reverse trip gives back `r` exactly when `r` is Ok or its error is "Value was None" |
| ResultExamples.ParseOptionalNumber | result_examples.rs:119-121 | None gives Ok(None); Some(s) gives Ok(Some(n)) or the parse error |
| ResultExamples.ParseAndDoubleExample | result_examples.rs:161-164 | "21" gives 42 |
| ResultExamples.ParseWithCustomErrorExample | result_examples.rs:168-171 | "42" gives 52 |
| ResultExamples.ParseWithCustomErrorFailureExample | result_examples.rs:172-175 | "not_a_number" gives "Parse error: invalid digit found in string" |
| ResultExamples.ConfigDefaultsExample | result_examples.rs:179-185 | "username" unwraps to "admin", and "missing" falls back to "default" |
| ResultExamples.ProcessTwoNumbersExample | result_examples.rs:189-192 | "5" and "10" sum to 15 |
| ResultExamples.MatchAndConversionExamples | result_examples.rs:196-208 | 42 and 0 from the match; the three conversions print Some(100), Ok(200) and Err("Value was None") |
| ResultExamples.ParseOptionalNumberExample | result_examples.rs:212-216 | Some("123") gives Ok(Some(123)) |
| OptionExamples.FindUser | examples/option_examples.rs:8-16 | Some("Alice") if and only if id 1, Some("Bob") if and only if id 2, otherwise None |
| OptionExamples.GetUsername | examples/option_examples.rs:22-24 | the found name, or "Guest" |
| OptionExamples.GreetUser | examples/option_examples.rs:30-35 | the create-greeting text for a found user, or "Hello, stranger!" |
| OptionExamples.GetUserLength | examples/option_examples.rs:41-43 | Some(length of the name) exactly when a user is found |
| OptionExamples.FirstCharOf | examples/option_examples.rs:50 | `chars().next()`: the first character, None for an empty name |
| OptionExamples.GetFirstChar | examples/option_examples.rs:49-51 | Some(first character) exactly when a user is found whose name is non-empty |
| OptionExamples.GetLongUsername | examples/option_examples.rs:57-59 | Some(name) exactly when the found name is longer than 4 bytes, and then it equals `find_user` |
| OptionExamples.LongUsernameIsFound | examples/option_examples.rs:57-59 | `filter` only removes: a kept name is what `find_user` found |
| OptionExamples.MainExamples | examples/option_examples.rs:68-105 | the printed values: Alice/Bob/None; Alice/Guest; length 5; 'A'; Some("Alice") for id 1 and None for id 2 |
| Wrappers.Option.Map | examples/option_examples.rs:42 | the result is present exactly when the input is, and holds `f` of the input's value |
| Wrappers.Option.AndThen | examples/option_examples.rs:50 | None stays None; Some(v) gives `f(v)` |
| Wrappers.Option.Filter | examples/option_examples.rs:58 | keeps the value exactly when the predicate holds, and then unchanged |
| Wrappers.Option.UnwrapOr | examples/option_examples.rs:23 | the value, or the default |
| Wrappers.Option.OkOr | result_examples.rs:112 | Some(v) gives Ok(v); None gives Err(err) |
| Wrappers.Result.ToOption | result_examples.rs:108 | Ok(v) gives Some(v); an error gives None |
| Wrappers.Result.Map | result_examples.rs:63 | maps a success value and keeps an error |
| Wrappers.Result.MapErr | result_examples.rs:64 | maps an error and keeps a success value |
| Wrappers.Result.AndThen | result_examples.rs:54 | Ok(v) gives `f(v)`; an error propagates unchanged |
| Wrappers.Result.UnwrapOr | result_examples.rs:179 | the value, or the default |
| Wrappers.Result.UnwrapOrElse | result_examples.rs:181-184 | the value, or the fallback computed from the error |
| Wrappers.Transpose | result_examples.rs:120 | None gives Ok(None); Some(Ok(v)) gives Ok(Some(v)); Some(Err(e)) gives Err(e) |
| Wrappers.TransposeResult | result_examples.rs:120 | the reverse transposition |
| Wrappers.TransposeRoundTrip | result_examples.rs:120 | the two transpositions undo each other, in both orders |
| Wrappers.IsSomeIsNoneComplementary | examples/option_examples.rs:104-105 | `is_some` holds exactly when `is_none` does not |
| Wrappers.IsOkIsErrComplementary | result_examples.rs:221-222 | `is_ok` holds exactly when `is_err` does not |

## Left out

- Console output: `println!`, `eprintln!`, `print_message`, `print_twice`, `consume_string`. The `demonstrate_*` drivers are modelled as methods that return the values they print. `greet_user` is modelled as the line it prints.
- `main`, and the command-line dispatch in examples/ownership_runner.rs. The module file examples/ownership/mod.rs only declares paths.
- examples/ownership/01_ownership_basics.rs: its lessons are compile-time move, copy and drop rules. Its runtime functions are constants or identities.
- Move, borrow and lifetime checking: this is the compiler's work; the scripts contain no such checker.
- `demonstrate_static`: it prints two literals and computes nothing.
- The `{:p}` address printing: addresses carry no meaning.
- `divide` and `safe_sqrt`: floating point.
- `read_file_contents`: file-system I/O.
- UTF-8: a string is a sequence of one-byte characters, so the char-boundary panics of slicing are not modelled.
- IntParse.Parse: for a string that both overflows and holds an invalid digit, the model reports InvalidDigit. The real parser scans left to right and may report the overflow first.
- IntParse.Message: the error texts follow the standard library's `ParseIntError` display. The standard library's own code is not part of this model.
- Vectors are fixed-size arrays: no modelled operation grows or shrinks one.
- A shared reference to an immutable `i32` (`&x`) holds a copy of `x`. While the borrow lasts, `x` cannot change, so the copy reads the same as the original.
- `release` builds, where i32 arithmetic wraps instead of panicking: every overflow is a precondition here.
