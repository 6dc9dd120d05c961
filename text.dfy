/** Byte strings as the examples use them: a Rust `&str` is a `string` whose
    characters stand for its bytes (ASCII text), and a Rust `String` is an
    `OwnedString` object whose contents are updated in place. */
module Text {

  /** `&s[lo..hi]`: the bytes of `s` from `lo` up to, not including, `hi`.
      Rust panics unless `lo <= hi <= s.len()`. */
  function Slice(s: string, lo: nat, hi: nat): (r: string)
    requires lo <= hi <= |s|
    ensures |r| == hi - lo
    ensures forall k :: 0 <= k < |r| ==> r[k] == s[lo + k]
  {
    s[lo..hi]
  }

  /** Slicing at `i` and putting the two halves back together gives the original. */
  lemma SliceJoin(s: string, i: nat)
    requires i <= |s|
    ensures Slice(s, 0, i) + Slice(s, i, |s|) == s
  {
  }

  /** The part of `s` before the first occurrence of `c`, or all of `s` when
      `c` does not occur: the first item of `s.split(c)`. */
  function PrefixBefore(s: string, c: char): (r: string)
    ensures r <= s
    ensures c !in r
    ensures |r| < |s| ==> s[|r|] == c
    decreases |s|
  {
    if s == [] then []
    else if s[0] == c then []
    else [s[0]] + PrefixBefore(s[1..], c)
  }

  /** The three facts `PrefixBefore` ensures pin its result down: a prefix of
      `s` of length `n` free of `c` and followed by `c` (or by nothing) is it. */
  lemma PrefixBeforeUnique(s: string, c: char, n: nat)
    requires n <= |s|
    requires forall k :: 0 <= k < n ==> s[k] != c
    requires n < |s| ==> s[n] == c
    ensures PrefixBefore(s, c) == s[..n]
  {
  }

  /** Rust's owned, growable `String`. */
  class OwnedString {
    var bytes: string

    /** `String::from`, `to_string` and `to_owned`: a fresh copy of `s`. */
    constructor From(s: string)
      ensures bytes == s
    {
      bytes := s;
    }

    /** `String::push_str`: append `t`, keeping the old contents as a prefix. */
    method PushStr(t: string)
      modifies this
      ensures bytes == old(bytes) + t
    {
      bytes := bytes + t;
    }

    /** `String::push`: append one byte. */
    method Push(c: char)
      modifies this
      ensures bytes == old(bytes) + [c]
    {
      bytes := bytes + [c];
    }

    /** `String::as_str`, also what `&s` coerces to: the same contents, borrowed. */
    function AsStr(): (r: string)
      reads this
      ensures |r| == |bytes| && r <= bytes
    {
      bytes
    }
  }
}
