/** examples/ownership/04_string_types.rs: owned `String` versus borrowed `&str`,
    in-place appends, conversions, slicing and the two kinds of return value. */
module StringTypes {
  import opened Wrappers
  import opened Text

  const GREETING_HEAD: string := "Hello, "
  const GREETING_TAIL: string := "!"

  /** `create_greeting`: a new owned string `format!("Hello, {}!", name)`. */
  function CreateGreeting(name: string): (r: string)
    ensures |r| == |name| + 8
    ensures r[..7] == GREETING_HEAD && r[|r| - 1] == '!'
    ensures r[7..|r| - 1] == name
  {
    GREETING_HEAD + name + GREETING_TAIL
  }

  /** Recovers the name from a greeting, or nothing from text that is not one:
      the inverse of `CreateGreeting`. */
  function GreetedName(g: string): (r: Option<string>)
    ensures r.Some? ==> |g| >= 8 && g[..7] == GREETING_HEAD && g[|g| - 1] == '!'
  {
    if |g| >= 8 && g[..7] == GREETING_HEAD && g[|g| - 1] == '!' then Some(g[7..|g| - 1])
    else None
  }

  lemma GreetingRoundTrip(name: string)
    ensures GreetedName(CreateGreeting(name)) == Some(name)
  {
  }

  lemma GreetingsAreInjective(a: string, b: string)
    ensures CreateGreeting(a) == CreateGreeting(b) ==> a == b
  {
    GreetingRoundTrip(a);
    GreetingRoundTrip(b);
  }

  /** `get_first_word`: the same byte scan as `first_word`, returning the part
      before the first space, or the whole string when there is none. */
  method GetFirstWord(s: string) returns (w: string)
    ensures w <= s && ' ' !in w
    ensures |w| < |s| ==> s[|w|] == ' '
    ensures w == PrefixBefore(s, ' ')
  {
    for i := 0 to |s|
      invariant forall k :: 0 <= k < i ==> s[k] != ' '
    {
      if s[i] == ' ' {
        PrefixBeforeUnique(s, ' ', i);
        return s[0..i];
      }
    }
    PrefixBeforeUnique(s, ' ', |s|);
    return s;
  }

  /** `demonstrate_string_types`: a literal, and a `&str` borrowed from a `String`. */
  method DemonstrateStringTypes() returns (s1: string, s2: string, s3: string)
    ensures s1 == "hello" && s2 == "world" && s3 == s1
  {
    var owned := new OwnedString.From("hello");
    s2 := "world";
    s3 := owned.AsStr();
    s1 := owned.bytes;
  }

  /** `demonstrate_mutability`: `push_str(" world")` then `push('!')`. */
  method DemonstrateMutability() returns (modified: string, slice: string)
    ensures modified == "hello world!"
    ensures slice == "hello"
  {
    var s := new OwnedString.From("hello");
    s.PushStr(" world");
    assert s.bytes == "hello world";
    s.Push('!');
    modified := s.bytes;
    slice := "hello";
  }

  /** `demonstrate_conversions`: `to_string`, `from` and `to_owned` copy the
      literal exactly; `&s` and `as_str` expose the same contents. */
  method DemonstrateConversions() returns (s1: string, s2: string, s3: string, slice: string, slice2: string)
    ensures s1 == "hello" && s2 == "world" && s3 == "rust"
    ensures slice == "hello" && slice2 == slice
  {
    var o1 := new OwnedString.From("hello");
    var o2 := new OwnedString.From("world");
    var o3 := new OwnedString.From("rust");
    s1, s2, s3 := o1.bytes, o2.bytes, o3.bytes;
    var s := new OwnedString.From("hello");
    slice := s.AsStr();
    slice2 := s.AsStr();
  }

  /** `demonstrate_slicing`: `[0..5]`, `[6..11]` and `[..]` of "hello world". */
  method DemonstrateSlicing() returns (hello: string, world: string, full: string)
    ensures hello == "hello" && world == "world" && full == "hello world"
  {
    var s := new OwnedString.From("hello world");
    hello := Slice(s.bytes, 0, 5);
    world := Slice(s.bytes, 6, 11);
    full := Slice(s.bytes, 0, |s.bytes|);
  }

  /** `demonstrate_return_types`. */
  method DemonstrateReturnTypes() returns (greeting: string, first: string)
    ensures greeting == "Hello, Alice!" && first == "hello"
  {
    greeting := CreateGreeting("Alice");
    var sentence := "hello world rust";
    first := GetFirstWord(sentence);
    PrefixBeforeUnique(sentence, ' ', 5);
  }
}
