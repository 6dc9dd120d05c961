/** Rust's `Option<T>` and `Result<T, E>` with the combinators the examples
    call on them. `Result` is failure-compatible, so Dafny's `:-` plays the
    part of Rust's `?` operator. */
module Wrappers {

  datatype Option<T> = None | Some(value: T) {

    /** `Option::is_some`. */
    predicate IsSome() {
      Some?
    }

    /** `Option::is_none`. */
    predicate IsNone() {
      None?
    }

    /** `Option::map`: apply `f` to a present value. */
    function Map<U>(f: T --> U): (r: Option<U>)
      requires Some? ==> f.requires(value)
      ensures r.Some? <==> Some?
      ensures Some? ==> r.value == f(value)
    {
      match this
      case None => None
      case Some(v) => Some(f(v))
    }

    /** `Option::and_then`: chain an operation that may itself produce nothing. */
    function AndThen<U>(f: T --> Option<U>): (r: Option<U>)
      requires Some? ==> f.requires(value)
      ensures None? ==> r.None?
      ensures Some? ==> r == f(value)
    {
      match this
      case None => None
      case Some(v) => f(v)
    }

    /** `Option::filter`: keep a present value only when it satisfies `p`. */
    function Filter(p: T -> bool): (r: Option<T>)
      ensures r.Some? <==> Some? && p(value)
      ensures r.Some? ==> r == this
    {
      match this
      case Some(v) => if p(v) then this else None
      case None => None
    }

    /** `Option::unwrap_or`. */
    function UnwrapOr(default: T): (r: T)
      ensures Some? ==> r == value
      ensures None? ==> r == default
    {
      match this
      case Some(v) => v
      case None => default
    }

    /** `Option::ok_or`: a missing value becomes the error `err`. */
    function OkOr<E>(err: E): (r: Result<T, E>)
      ensures r.Ok? <==> Some?
      ensures Some? ==> r.value == value
      ensures None? ==> r.error == err
    {
      match this
      case Some(v) => Ok(v)
      case None => Err(err)
    }
  }

  datatype Result<T, E> = Ok(value: T) | Err(error: E) {

    predicate IsFailure() {
      Err?
    }

    function PropagateFailure<U>(): Result<U, E>
      requires Err?
    {
      Err(error)
    }

    function Extract(): T
      requires Ok?
    {
      value
    }

    /** `Result::is_ok`. */
    predicate IsOk() {
      Ok?
    }

    /** `Result::is_err`. */
    predicate IsErr() {
      Err?
    }

    /** `Result::ok`: forget the error. */
    function ToOption(): (r: Option<T>)
      ensures r.Some? <==> Ok?
      ensures Ok? ==> r.value == value
    {
      match this
      case Ok(v) => Some(v)
      case Err(_) => None
    }

    /** `Result::map`: apply `f` to a success value, keep an error as it is. */
    function Map<U>(f: T --> U): (r: Result<U, E>)
      requires Ok? ==> f.requires(value)
      ensures r.Ok? <==> Ok?
      ensures Ok? ==> r.value == f(value)
      ensures Err? ==> r.error == error
    {
      match this
      case Ok(v) => Ok(f(v))
      case Err(e) => Err(e)
    }

    /** `Result::map_err`: apply `f` to an error, keep a success value as it is. */
    function MapErr<F>(f: E -> F): (r: Result<T, F>)
      ensures r.Ok? <==> Ok?
      ensures Ok? ==> r.value == value
      ensures Err? ==> r.error == f(error)
    {
      match this
      case Ok(v) => Ok(v)
      case Err(e) => Err(f(e))
    }

    /** `Result::and_then`: chain an operation that may itself fail. */
    function AndThen<U>(f: T --> Result<U, E>): (r: Result<U, E>)
      requires Ok? ==> f.requires(value)
      ensures Ok? ==> r == f(value)
      ensures Err? ==> r == Err(error)
    {
      match this
      case Ok(v) => f(v)
      case Err(e) => Err(e)
    }

    /** `Result::unwrap_or`. */
    function UnwrapOr(default: T): (r: T)
      ensures Ok? ==> r == value
      ensures Err? ==> r == default
    {
      match this
      case Ok(v) => v
      case Err(_) => default
    }

    /** `Result::unwrap_or_else`: compute the fallback from the error. */
    function UnwrapOrElse(fallback: E -> T): (r: T)
      ensures Ok? ==> r == value
      ensures Err? ==> r == fallback(error)
    {
      match this
      case Ok(v) => v
      case Err(e) => fallback(e)
    }
  }

  /** `Option::transpose`: `Option<Result<T, E>>` to `Result<Option<T>, E>`. */
  function Transpose<T, E>(o: Option<Result<T, E>>): (r: Result<Option<T>, E>)
    ensures o.None? ==> r == Ok(None)
    ensures o.Some? && o.value.Ok? ==> r == Ok(Some(o.value.value))
    ensures o.Some? && o.value.Err? ==> r == Err(o.value.error)
  {
    match o
    case None => Ok(None)
    case Some(Ok(v)) => Ok(Some(v))
    case Some(Err(e)) => Err(e)
  }

  /** `Result::transpose`, the inverse direction of `Transpose`. */
  function TransposeResult<T, E>(r: Result<Option<T>, E>): (o: Option<Result<T, E>>)
    ensures r == Ok(None) ==> o.None?
    ensures r.Ok? && r.value.Some? ==> o == Some(Ok(r.value.value))
    ensures r.Err? ==> o == Some(Err(r.error))
  {
    match r
    case Ok(None) => None
    case Ok(Some(v)) => Some(Ok(v))
    case Err(e) => Some(Err(e))
  }

  /** The two transpositions undo each other, in both orders. */
  lemma TransposeRoundTrip<T, E>(o: Option<Result<T, E>>, r: Result<Option<T>, E>)
    ensures TransposeResult(Transpose(o)) == o
    ensures Transpose(TransposeResult(r)) == r
  {
  }

  /** `is_some` and `is_none` are complementary. */
  lemma IsSomeIsNoneComplementary<T>(o: Option<T>)
    ensures o.IsSome() <==> !o.IsNone()
  {
  }

  /** `is_ok` and `is_err` are complementary. */
  lemma IsOkIsErrComplementary<T, E>(r: Result<T, E>)
    ensures r.IsOk() <==> !r.IsErr()
  {
  }
}
