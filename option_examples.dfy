/** examples/option_examples.rs: a fixed user table looked up with `Option`,
    and the combinators `unwrap_or`, `map`, `and_then` and `filter` on it. */
module OptionExamples {
  import opened Ints
  import opened Wrappers
  import StringTypes

  /** `find_user`: user 1 is Alice, user 2 is Bob, nobody else exists. */
  function FindUser(id: UInt32): (r: Option<string>)
    ensures r == Some("Alice") <==> id == 1
    ensures r == Some("Bob") <==> id == 2
    ensures r.None? <==> id != 1 && id != 2
  {
    if id == 1 then Some("Alice")
    else if id == 2 then Some("Bob")
    else None
  }

  const GUEST: string := "Guest"

  /** `get_username`: the user's name, or "Guest" for an unknown id. */
  function GetUsername(id: UInt32): (name: string)
    ensures FindUser(id).Some? ==> name == FindUser(id).value
    ensures FindUser(id).None? ==> name == GUEST
  {
    FindUser(id).UnwrapOr(GUEST)
  }

  /** `greet_user`: the line it prints, a greeting for a known user. */
  function GreetUser(id: UInt32): (line: string)
    ensures FindUser(id).Some? ==> line == StringTypes.CreateGreeting(FindUser(id).value)
    ensures FindUser(id).None? ==> line == "Hello, stranger!"
  {
    match FindUser(id)
    case Some(name) => "Hello, " + name + "!"
    case None => "Hello, stranger!"
  }

  /** `get_user_length`: the byte length of a found name. */
  function GetUserLength(id: UInt32): (r: Option<nat>)
    ensures r.Some? <==> FindUser(id).Some?
    ensures r.Some? ==> r.value == |FindUser(id).value|
  {
    FindUser(id).Map((name: string) => |name|)
  }

  /** `name.chars().next()`: the first character, if there is one. */
  function FirstCharOf(name: string): (r: Option<char>)
    ensures r.Some? <==> name != []
    ensures r.Some? ==> r.value == name[0]
  {
    if name == [] then None else Some(name[0])
  }

  /** `get_first_char`: the first character of a found name. */
  function GetFirstChar(id: UInt32): (r: Option<char>)
    ensures r.Some? <==> FindUser(id).Some? && FindUser(id).value != []
    ensures r.Some? ==> r.value == FindUser(id).value[0]
  {
    FindUser(id).AndThen(FirstCharOf)
  }

  /** `get_long_username`: a found name, kept only when longer than 4 bytes. */
  function GetLongUsername(id: UInt32): (r: Option<string>)
    ensures r.Some? <==> FindUser(id).Some? && |FindUser(id).value| > 4
    ensures r.Some? ==> r == FindUser(id)
  {
    FindUser(id).Filter((name: string) => |name| > 4)
  }

  /** `filter` only removes: whatever it keeps is what `find_user` found. */
  lemma LongUsernameIsFound(id: UInt32)
    ensures GetLongUsername(id).Some? ==> FindUser(id) == GetLongUsername(id)
    ensures FindUser(id).None? ==> GetLongUsername(id).None?
  {
  }

  /** The values `main` prints. */
  lemma MainExamples()
    ensures FindUser(1) == Some("Alice") && FindUser(2) == Some("Bob") && FindUser(99) == None
    ensures GetUsername(1) == "Alice" && GetUsername(99) == "Guest"
    ensures GreetUser(1) == "Hello, Alice!" && GreetUser(99) == "Hello, stranger!"
    ensures GetUserLength(1) == Some(5) && GetUserLength(99) == None
    ensures GetFirstChar(1) == Some('A') && GetFirstChar(99) == None
    ensures GetLongUsername(1) == Some("Alice") && GetLongUsername(2) == None
    ensures FindUser(1).IsSome() && !FindUser(1).IsNone()
  {
  }
}
