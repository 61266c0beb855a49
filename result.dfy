/**
 * The library's own `Result<Value>` enum (Photon/Source/Common/Result.swift):
 * a success carrying a value or a failure carrying an error.
 */
module Results {
  import opened Optional

  /** The error a failure carries; `Unknown` stands for `PhotonError.unknown`. */
  datatype Fault = Unknown | Code(code: int)

  datatype Result<+V> = Success(value: V) | Failure(error: Fault) {

    /** `isSuccess`: true exactly for the success case. */
    predicate IsSuccess() {
      match this
      case Success(_) => true
      case Failure(_) => false
    }

    /** `isFailure` is defined as the negation of `isSuccess`. */
    predicate IsFailure() {
      !IsSuccess()
    }

    /** `value`: the associated value on success, `nil` otherwise. */
    function Value(): (r: Option<V>)
      ensures r.Some? <==> Success?
      ensures Success? ==> r == Some(value)
    {
      match this
      case Success(v) => Some(v)
      case Failure(_) => None
    }

    /** `error`: the associated error on failure, `nil` otherwise. */
    function Error(): (r: Option<Fault>)
      ensures r.Some? <==> Failure?
      ensures Failure? ==> r == Some(error)
    {
      match this
      case Success(_) => None
      case Failure(e) => Some(e)
    }

    /** `map`: applies `f` to a success value and passes a failure through unchanged. */
    function Map<U>(f: V -> U): (r: Result<U>)
      ensures r.Success? <==> Success?
      ensures Success? ==> r.value == f(value)
      ensures Failure? ==> r.error == error
    {
      match this
      case Success(v) => Success(f(v))
      case Failure(e) => Failure(e)
    }

    /** `flatMap`: continues with `f` on success and keeps the error on failure. */
    function FlatMap<U>(f: V -> Result<U>): (r: Result<U>)
      ensures Success? ==> r == f(value)
      ensures Failure? ==> r == Failure(error)
    {
      match this
      case Success(v) => f(v)
      case Failure(e) => Failure(e)
    }
  }

  /** Exactly one of `isSuccess` and `isFailure` holds, and `isSuccess` picks out the success case. */
  lemma SuccessXorFailure<V>(r: Result<V>)
    ensures r.IsSuccess() <==> r.Success?
    ensures r.IsFailure() <==> r.Failure?
    ensures r.IsSuccess() != r.IsFailure()
  {
  }

  /** `map` with the identity function changes nothing. */
  lemma MapIdentity<V>(r: Result<V>)
    ensures r.Map(x => x) == r
  {
  }

  /** `map` respects composition: mapping `f` and then `g` is mapping their composite. */
  lemma MapCompose<V, U, W>(r: Result<V>, f: V -> U, g: U -> W)
    ensures r.Map(f).Map(g) == r.Map(x => g(f(x)))
  {
  }

  /** `flatMap` laws: success is a left and right unit, and chaining associates. */
  lemma FlatMapLaws<V, U, W>(r: Result<V>, v: V, f: V -> Result<U>, g: U -> Result<W>)
    ensures Success(v).FlatMap(f) == f(v)
    ensures r.FlatMap(x => Success(x)) == r
    ensures r.FlatMap(f).FlatMap(g) == r.FlatMap(x => f(x).FlatMap(g))
  {
  }

  /** `map` is `flatMap` followed by wrapping in a success. */
  lemma MapIsFlatMap<V, U>(r: Result<V>, f: V -> U)
    ensures r.Map(f) == r.FlatMap(x => Success(f(x)))
  {
  }
}
