/** examples/ownership/02_borrowing.rs: functions that read through shared
    references. Each is a function with a `reads` frame, so it cannot change
    what it borrows. */
module Borrowing {
  import opened Ints
  import opened Text
  import opened Places

  /** `calculate_length`: the byte length of the borrowed string. */
  function CalculateLength(s: OwnedString): (n: nat)
    reads s
    ensures n == |s.bytes|
  {
    |s.AsStr()|
  }

  /** The mathematical sum of a sequence of `i32`s. */
  function Sum(s: seq<Int32>): int
  {
    if s == [] then 0 else Sum(s[..|s| - 1]) + s[|s| - 1] as int
  }

  /** Every running total of a left-to-right sum fits in an `i32`: what
      `iter().sum()` needs to finish without an overflow panic. */
  predicate PrefixSumsFit(s: seq<Int32>) {
    forall k :: 0 <= k <= |s| ==> InI32(Sum(s[..k]))
  }

  /** The iterator's fold: add `s[i..]` to the running total `acc`, one element at a time. */
  function SumFrom(s: seq<Int32>, i: nat, acc: Int32): (r: Int32)
    requires i <= |s| && PrefixSumsFit(s)
    requires acc as int == Sum(s[..i])
    ensures r as int == Sum(s)
    decreases |s| - i
  {
    if i == |s| then
      assert s[..i] == s;
      acc
    else
      assert s[..i + 1][..i] == s[..i];
      assert InI32(Sum(s[..i + 1]));
      SumFrom(s, i + 1, acc + s[i])
  }

  /** `sum_vector`: the sum of the borrowed vector, in `i32` arithmetic. */
  function SumVector(v: array<Int32>): (total: Int32)
    reads v
    requires PrefixSumsFit(v[..])
    ensures total as int == Sum(v[..])
  {
    SumFrom(v[..], 0, 0)
  }

  /** `demonstrate_basic_borrow`: `s1` is still "hello" after being borrowed. */
  method DemonstrateBasicBorrow() returns (s1: string, len: nat)
    ensures s1 == "hello" && len == 5
  {
    var owned := new OwnedString.From("hello");
    len := CalculateLength(owned);
    s1 := owned.bytes;
  }

  /** `demonstrate_multiple_borrows`: three shared borrows at once all see the
      owner's value. */
  method DemonstrateMultipleBorrows() returns (v1: string, v2: string, v3: string, original: string)
    ensures v1 == "hello" && v2 == v1 && v3 == v1 && original == v1
  {
    var s := new OwnedString.From("hello");
    var r1 := new Ref(s);
    var r2 := new Ref(s);
    var r3 := new Ref(s);
    v1, v2, v3 := r1.target.bytes, r2.target.bytes, r3.target.bytes;
    original := s.bytes;
  }

  /** `demonstrate_valid_references`: a borrow in an inner scope ends with
      that scope and leaves the owner valid. */
  method DemonstrateValidReferences() returns (seen: string, original: string)
    ensures seen == "hello" && original == "hello"
  {
    var s := new OwnedString.From("hello");
    {
      var r := new Ref(s);
      seen := r.target.bytes;
    }
    original := s.bytes;
  }

  /** `demonstrate_vector_borrow`: the vector is unchanged and its sum is 15. */
  method DemonstrateVectorBorrow() returns (numbers: seq<Int32>, total: Int32)
    ensures numbers == [1, 2, 3, 4, 5] && total == 15
  {
    var v := new Int32[5];
    v[0], v[1], v[2], v[3], v[4] := 1, 2, 3, 4, 5;
    assert v[..] == [1, 2, 3, 4, 5];
    SumOfFirstFive();
    total := SumVector(v);
    numbers := v[..];
  }

  /** Adding one element at the end adds it to the sum. */
  lemma SumSnoc(s: seq<Int32>, x: Int32)
    ensures Sum(s + [x]) == Sum(s) + x as int
  {
    assert (s + [x])[..|s|] == s;
  }

  lemma SumOfFirstFive()
    ensures PrefixSumsFit([1, 2, 3, 4, 5]) && Sum([1, 2, 3, 4, 5]) == 15
  {
    var s: seq<Int32> := [1, 2, 3, 4, 5];
    assert s[..0] == [] && s[..1] == [] + [1] && s[..2] == [1] + [2];
    assert s[..3] == [1, 2] + [3] && s[..4] == [1, 2, 3] + [4] && s[..5] == s == [1, 2, 3, 4] + [5];
    SumSnoc([], 1);
    SumSnoc([1], 2);
    SumSnoc([1, 2], 3);
    SumSnoc([1, 2, 3], 4);
    SumSnoc([1, 2, 3, 4], 5);
  }

  /** `demonstrate_dereference`: `*r == x` for `r = &x`. */
  method DemonstrateDereference() returns (x: Int32, deref: Int32)
    ensures x == 5 && deref == x
  {
    x := 5;
    var r := new Ref(x);
    deref := r.target;
  }
}
