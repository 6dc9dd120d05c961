/** examples/dereference_examples.rs: reading and writing through `*`. */
module Dereference {
  import opened Ints
  import opened Places
  import opened Text
  import MutableBorrowing

  /** `demonstrate_basic_deref`: `*r == x` and `*r + 10 == 15` for `x == 5`. */
  method DemonstrateBasicDeref() returns (x: Int32, deref: Int32, sum: Int32)
    ensures x == 5 && deref == x && sum == 15
  {
    x := 5;
    var r := new Ref(x);
    deref := r.target;
    sum := r.target + 10;
  }

  /** `demonstrate_mutable_deref`: `*r = 10; *r += 5` through `r = &mut x`
      leaves `x == 15`. */
  method DemonstrateMutableDeref() returns (before: Int32, afterAssign: Int32, afterAdd: Int32, finalX: Int32)
    ensures before == 5 && afterAssign == 10 && afterAdd == 15 && finalX == 15
  {
    var x := new Cell(5);
    before := x.value;
    var r := x;
    r.value := 10;
    afterAssign := r.value;
    r.value := r.value + 5;
    afterAdd := r.value;
    finalX := x.value;
  }

  /** `demonstrate_deref_comparison`: comparisons act on the value behind `r`. */
  method DemonstrateDerefComparison() returns (equalsY: bool, equalsFive: bool, aboveThree: bool)
    ensures equalsY && equalsFive && aboveThree
  {
    var x: Int32 := 5;
    var y: Int32 := 5;
    var r := new Ref(x);
    equalsY := r.target == y;
    equalsFive := r.target == 5;
    aboveThree := r.target > 3;
  }

  /** `demonstrate_deref_in_loops`: `*num *= 2` for each `num` of `iter_mut()`,
      on `vec![1, 2, 3, 4, 5]`. */
  method DemonstrateDerefInLoops() returns (before: seq<Int32>, after: seq<Int32>)
    ensures before == [1, 2, 3, 4, 5]
    ensures after == MutableBorrowing.Doubled(before) == [2, 4, 6, 8, 10]
  {
    var numbers := new Int32[5];
    numbers[0], numbers[1], numbers[2], numbers[3], numbers[4] := 1, 2, 3, 4, 5;
    before := numbers[..];
    assert before == [1, 2, 3, 4, 5];
    for i := 0 to numbers.Length
      invariant forall k :: 0 <= k < i ==> numbers[k] as int == 2 * before[k] as int
      invariant forall k :: i <= k < numbers.Length ==> numbers[k] == before[k]
    {
      numbers[i] := numbers[i] * 2;
    }
    after := numbers[..];
    MutableBorrowing.DoubledFromElements(before, after);
    MutableBorrowing.DoubledFirstFive();
  }

  /** `demonstrate_multiple_deref`: `**r2 == *r1 == x` for `r1 = &x`, `r2 = &r1`. */
  method DemonstrateMultipleDeref() returns (x: Int32, once: Int32, twice: Int32)
    ensures x == 5 && once == x && twice == x
  {
    x := 5;
    var r1 := new Ref(x);
    var r2 := new Ref(r1);
    once := r1.target;
    twice := r2.target.target;
  }

  /** `demonstrate_auto_deref`: `r.len()` and `(*r).len()` agree. */
  method DemonstrateAutoDeref() returns (auto: nat, manual: nat)
    ensures auto == 5 && manual == auto
  {
    var s := new OwnedString.From("hello");
    var r := new Ref(s);
    auto := |r.target.AsStr()|;
    manual := |r.target.bytes|;
  }

  /** `match *r { 5 => "five", _ => "something else" }`. */
  function MatchFive(v: Int32): (name: string)
    ensures name == "five" <==> v == 5
    ensures v != 5 ==> name == "something else"
  {
    match v
    case 5 => "five"
    case _ => "something else"
  }

  /** The conditional write of `demonstrate_deref_pattern`: `*r_mut = 20`
      exactly when `*r_mut` is 10. */
  method ReplaceTen(rMut: Cell)
    modifies rMut
    ensures old(rMut.value) == 10 ==> rMut.value == 20
    ensures old(rMut.value) != 10 ==> rMut.value == old(rMut.value)
  {
    match rMut.value
    case 10 =>
      rMut.value := 20;
    case _ =>
  }

  /** `demonstrate_deref_pattern`. */
  method DemonstrateDerefPattern() returns (matched: string, y: Int32)
    ensures matched == "five" && y == 20
  {
    var x: Int32 := 5;
    var r := new Ref(x);
    matched := MatchFive(r.target);
    var yCell := new Cell(10);
    ReplaceTen(yCell);
    y := yCell.value;
  }
}
