/** References to values. A shared reference `&x` is a `Ref` whose target
    cannot change; an exclusive reference `&mut x` to an `i32` local is the
    `Cell` holding that local, so a write through it is seen through `x`. */
module Places {
  import opened Ints

  /** `&T`: read-only access to a target. `*r` is `r.target`. */
  class Ref<T> {
    const target: T

    constructor (t: T)
      ensures target == t
    {
      target := t;
    }
  }

  /** A mutable `i32` local; `&mut x` hands out the cell itself. */
  class Cell {
    var value: Int32

    constructor (v: Int32)
      ensures value == v
    {
      value := v;
    }
  }
}
