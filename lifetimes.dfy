/** examples/ownership/05_lifetimes.rs: helpers whose results borrow from
    their arguments. The lifetime annotations themselves are compile-time
    only; what remains is which argument (or which part of it) comes back. */
module Lifetimes {
  import opened Text

  /** `longest`: the longer of two slices; a tie goes to `y`. */
  function Longest(x: string, y: string): (r: string)
    ensures r == x || r == y
    ensures |r| >= |x| && |r| >= |y|
    ensures r == x && r != y ==> |x| > |y|
    ensures |x| <= |y| ==> r == y
  {
    if |x| > |y| then x else y
  }

  /** `first_word`: scan the bytes for the first space and return what precedes it. */
  method FirstWord(s: string) returns (w: string)
    ensures w <= s && ' ' !in w
    ensures |w| < |s| ==> s[|w|] == ' '
    ensures w == PrefixBefore(s, ' ')
  {
    for i := 0 to |s|
      invariant forall k :: 0 <= k < i ==> s[k] != ' '
    {
      if s[i] == ' ' {
        PrefixBeforeUnique(s, ' ', i);
        return s[0..i];
      }
    }
    PrefixBeforeUnique(s, ' ', |s|);
    return s;
  }

  /** `announce_and_return`: the announcement comes back; `value` plays no part. */
  function AnnounceAndReturn(announcement: string, value: string): (r: string)
    ensures r == announcement
  {
    announcement
  }

  lemma AnnounceIgnoresValue(announcement: string, v1: string, v2: string)
    ensures AnnounceAndReturn(announcement, v1) == AnnounceAndReturn(announcement, v2)
  {
  }

  /** `first_char`, lifetime elided: the first byte, as a one-byte slice.
      `&s[0..1]` panics on an empty string. */
  function FirstChar(s: string): (r: string)
    requires |s| >= 1
    ensures |r| == 1 && r[0] == s[0] && r <= s
  {
    Slice(s, 0, 1)
  }

  /** `explicit_lifetime`: the same body as `first_char` with the lifetime written out. */
  function ExplicitLifetime(s: string): (r: string)
    requires |s| >= 1
    ensures |r| == 1 && r[0] == s[0]
  {
    Slice(s, 0, 1)
  }

  /** Elided and explicit lifetimes make no difference to the result. */
  lemma ElisionAgrees(s: string)
    requires |s| >= 1
    ensures FirstChar(s) == ExplicitLifetime(s) == s[..1]
  {
  }

  /** `struct Excerpt<'a> { text: &'a str }`. */
  datatype Excerpt = Excerpt(text: string) {

    /** `Excerpt::get_text`. */
    function GetText(): (r: string)
      ensures r == text
    {
      text
    }

    /** `Excerpt::announce`: prints the announcement, returns the stored text. */
    function Announce(announcement: string): (r: string)
      ensures r == text
    {
      text
    }
  }

  /** Building an excerpt and reading it back gives the same text, and both
      getters agree whatever the announcement. */
  lemma ExcerptRoundTrip(t: string, announcement: string)
    ensures Excerpt(t).GetText() == t
    ensures Excerpt(t).Announce(announcement) == Excerpt(t).GetText()
  {
  }

  /** `demonstrate_basic_lifetime`. */
  method DemonstrateBasicLifetime() returns (result: string)
    ensures result == "long string"
  {
    var string1 := "long string";
    var string2 := "short";
    result := Longest(string1, string2);
  }

  /** `demonstrate_lifetime_annotation`: the word borrows from the sentence,
      which is still whole afterwards. */
  method DemonstrateLifetimeAnnotation() returns (word: string, sentence: string)
    ensures word == "hello" && sentence == "hello world"
  {
    sentence := "hello world";
    word := FirstWord(sentence);
    PrefixBeforeUnique(sentence, ' ', 5);
  }

  /** `demonstrate_multiple_lifetimes`. */
  method DemonstrateMultipleLifetimes() returns (result: string)
    ensures result == "Important!"
  {
    var ann := "Important!";
    var val := "some value";
    result := AnnounceAndReturn(ann, val);
  }

  /** `demonstrate_elision`. */
  method DemonstrateElision() returns (inferred: string, explicit: string)
    ensures inferred == "h" && explicit == "h"
  {
    var text := "hello";
    inferred := FirstChar(text);
    explicit := ExplicitLifetime(text);
  }

  /** `demonstrate_struct_lifetime`: the excerpt holds the first '.'-separated
      segment of the novel. */
  method DemonstrateStructLifetime() returns (excerptText: string, announced: string)
    ensures excerptText == "Call me Ishmael"
    ensures announced == excerptText
  {
    var novel := "Call me Ishmael. Some years ago...";
    PrefixBeforeUnique(novel, '.', 15);
    var firstSentence := PrefixBefore(novel, '.');
    var excerpt := Excerpt(firstSentence);
    excerptText := excerpt.GetText();
    announced := excerpt.Announce("From Moby Dick:");
  }
}
