/** examples/ownership/03_mutable_borrowing.rs: changing borrowed data through
    `&mut`. A `&mut String` is the `OwnedString` object itself, a `&mut Vec<i32>`
    the array that holds the vector's elements (nothing here resizes it), and
    `&mut v[0]` a `Slot` naming one element of that array. */
module MutableBorrowing {
  import opened Ints
  import opened Text
  import Borrowing

  /** `add_world`: append ", world" to the borrowed string. */
  method AddWorld(s: OwnedString)
    modifies s
    ensures s.bytes == old(s.bytes) + ", world"
  {
    s.PushStr(", world");
  }

  /** Every element can be doubled without an `i32` overflow, which would
      panic in a debug build. */
  predicate DoublesFit(s: seq<Int32>) {
    forall k :: 0 <= k < |s| ==> InI32(2 * s[k] as int)
  }

  /** The sequence with every element doubled. */
  function Doubled(s: seq<Int32>): seq<Int32>
    requires DoublesFit(s)
  {
    if s == [] then []
    else Doubled(s[..|s| - 1]) + [(2 * s[|s| - 1] as int) as Int32]
  }

  /** `Doubled` keeps the length and doubles each element in its place. */
  lemma {:induction false} DoubledAt(s: seq<Int32>)
    requires DoublesFit(s)
    ensures |Doubled(s)| == |s|
    ensures forall k :: 0 <= k < |s| ==> Doubled(s)[k] as int == 2 * s[k] as int
  {
    if s != [] {
      DoubledAt(s[..|s| - 1]);
    }
  }

  /** Doubling every element doubles the sum: `sum_vector` after
      `double_values` is twice `sum_vector` before. */
  lemma {:induction false} SumOfDoubled(s: seq<Int32>)
    requires DoublesFit(s)
    ensures Borrowing.Sum(Doubled(s)) == 2 * Borrowing.Sum(s)
  {
    if s != [] {
      var init := s[..|s| - 1];
      SumOfDoubled(init);
      Borrowing.SumSnoc(Doubled(init), (2 * s[|s| - 1] as int) as Int32);
    }
  }

  /** The element-wise form of `Doubled`, as a relation between two states. */
  lemma DoubledFromElements(before: seq<Int32>, after: seq<Int32>)
    requires DoublesFit(before) && |after| == |before|
    requires forall k :: 0 <= k < |before| ==> after[k] as int == 2 * before[k] as int
    ensures after == Doubled(before)
  {
    DoubledAt(before);
  }

  /** `double_values`: `*num *= 2` for every `num` in `v.iter_mut()`. */
  method DoubleValues(v: array<Int32>)
    requires DoublesFit(v[..])
    modifies v
    ensures v[..] == Doubled(old(v[..]))
  {
    for i := 0 to v.Length
      invariant forall k :: 0 <= k < i ==> v[k] as int == 2 * old(v[k]) as int
      invariant forall k :: i <= k < v.Length ==> v[k] == old(v[k])
    {
      v[i] := v[i] * 2;
    }
    DoubledFromElements(old(v[..]), v[..]);
  }

  lemma DoubledFirstFive()
    ensures DoublesFit([1, 2, 3, 4, 5]) && Doubled([1, 2, 3, 4, 5]) == [2, 4, 6, 8, 10]
  {
    var s: seq<Int32> := [1, 2, 3, 4, 5];
    DoubledFromElements(s, [2, 4, 6, 8, 10]);
  }

  /** An exclusive borrow of one element of a vector: `&mut vec[index]`. */
  datatype Slot = Slot(vec: array<Int32>, index: nat)

  /** `get_first_mut`: `&mut v[0]`, which panics on an empty vector. */
  method GetFirstMut(v: array<Int32>) returns (slot: Slot)
    requires v.Length > 0
    ensures slot.vec == v && slot.index == 0
  {
    slot := Slot(v, 0);
  }

  /** `*slot = x`: only the borrowed element changes. */
  method WriteThrough(slot: Slot, x: Int32)
    requires slot.index < slot.vec.Length
    modifies slot.vec
    ensures slot.vec[..] == old(slot.vec[..])[slot.index := x]
  {
    slot.vec[slot.index] := x;
  }

  /** `demonstrate_mutable_borrow`. */
  method DemonstrateMutableBorrow() returns (before: string, after: string)
    ensures before == "hello" && after == "hello, world"
  {
    var s := new OwnedString.From("hello");
    before := s.bytes;
    AddWorld(s);
    after := s.bytes;
  }

  /** `demonstrate_single_mutable_borrow`: two exclusive borrows one after
      the other, each appending. */
  method DemonstrateSingleMutableBorrow() returns (seenByR1: string, seenByR2: string)
    ensures seenByR1 == "hello world" && seenByR2 == "hello world!"
  {
    var s := new OwnedString.From("hello");
    var r1 := s;
    r1.PushStr(" world");
    seenByR1 := r1.bytes;
    var r2 := s;
    r2.PushStr("!");
    seenByR2 := r2.bytes;
  }

  /** `demonstrate_borrow_rules`: two shared borrows read, then, once they are
      no longer used, an exclusive borrow appends. */
  method DemonstrateBorrowRules() returns (seenByR1: string, seenByR2: string, seenByR3: string)
    ensures seenByR1 == "hello" && seenByR2 == "hello"
    ensures seenByR3 == "hello world"
  {
    var s := new OwnedString.From("hello");
    seenByR1 := s.AsStr();
    seenByR2 := s.AsStr();
    var r3 := s;
    r3.PushStr(" world");
    seenByR3 := r3.bytes;
  }

  /** `demonstrate_vector_mutation`. */
  method DemonstrateVectorMutation() returns (before: seq<Int32>, after: seq<Int32>)
    ensures before == [1, 2, 3, 4, 5] && after == [2, 4, 6, 8, 10]
  {
    var numbers := new Int32[5];
    numbers[0], numbers[1], numbers[2], numbers[3], numbers[4] := 1, 2, 3, 4, 5;
    before := numbers[..];
    assert before == [1, 2, 3, 4, 5];
    DoubledFirstFive();
    DoubleValues(numbers);
    after := numbers[..];
  }

  /** `demonstrate_return_mut_ref`: writing 99 through `get_first_mut`. */
  method DemonstrateReturnMutRef() returns (before: seq<Int32>, after: seq<Int32>)
    ensures before == [10, 20, 30] && after == [99, 20, 30]
  {
    var numbers := new Int32[3];
    numbers[0], numbers[1], numbers[2] := 10, 20, 30;
    before := numbers[..];
    var first := GetFirstMut(numbers);
    WriteThrough(first, 99);
    after := numbers[..];
  }
}
