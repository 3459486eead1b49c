/** Laws relating the operations of `Try` to one another: capture and
    re-raise are inverse, the Optional conversions round-trip, `map` and
    `flatMap` obey the functor and monad laws, `filter` is idempotent, and
    the eager and lazy `orElse` agree. */
module TryLaws {
  import opened JavaLang
  import opened Tries
  import Predicates

  /** Capturing `get` of any Try rebuilds that Try. (The other direction,
      `get` of `of(s)` being s's outcome, is part of the contract of `Of`.) */
  lemma OfGetRebuildsTry<T>(t: Try<T>)
    ensures Of(NonNull(() => Get(t))) == t
  {
  }

  /** A present Optional survives the trip through Try and back; an empty
      one comes back empty. */
  lemma ToOptionalFromOptional<T>(o: Optional<T>)
    ensures ToOptional(FromOptional(NonNull(o))) == o
  {
  }

  /** The trip from Try to Optional and back keeps a Success with a
      non-null value and turns everything else into a NoSuchElementException
      Failure: the throwable and a null value are lost. */
  lemma FromOptionalToOptional<T>(t: Try<T>)
    ensures t.Success? && t.value.NonNull? ==> FromOptional(NonNull(ToOptional(t))) == t
    ensures !(t.Success? && t.value.NonNull?) ==> FromOptional(NonNull(ToOptional(t))) == Failure(NoSuchElement)
  {
  }

  /** Filtering twice with the same predicate is filtering once. The law
      rests on the predicate answering the same on both calls, as every
      predicate of this model does; a Java predicate with state (true on its
      first call, false on its second) breaks it. */
  lemma FilterIdempotent<T>(t: Try<T>, p: Nullable<Predicates.ThrowablePredicate<T>>)
    ensures Filter(Filter(t, p), p) == Filter(t, p)
  {
  }

  /** A Failure is untouched by `filter`, whatever the predicate, so the
      predicate cannot have been consulted. */
  lemma FilterIgnoresPredicateOnFailure<T>(
    e: Exn, p: Nullable<Predicates.ThrowablePredicate<T>>, q: Nullable<Predicates.ThrowablePredicate<T>>)
    ensures Filter(Failure(e), p) == Filter(Failure(e), q) == Failure(e)
  {
  }

  /** Filtering with `isEqual(v)` keeps exactly the Success whose value is v. */
  lemma FilterByIsEqual<T(!new)>(v: Nullable<T>, w: Nullable<T>)
    ensures Filter(Success(v), NonNull(Predicates.IsEqual(v))) == Success(v)
    ensures w != v ==> Filter(Success(w), NonNull(Predicates.IsEqual(v))) == Failure(NoSuchElement)
  {
  }

  /** ThrowableFunction.identity(). */
  function Identity<T>(): ThrowableFunction<T, T>
  {
    (x: Nullable<T>) => Returned(x)
  }

  /** `map(identity)` is the receiver itself, on either variant. */
  lemma MapIdentity<T>(t: Try<T>)
    ensures Map(t, NonNull(Identity())) == t
  {
  }

  /** A mapper that returns null gives Success(null), not a Failure: the
      code keeps the null, although the Javadoc of `map` promises a failed
      Try for a null result. */
  lemma MapToNullIsSuccessOfNull<T, U>(v: Nullable<T>)
    ensures Map(Success(v), NonNull((x: Nullable<T>) => Returned(Null))) == Try<U>.Success(Null)
  {
  }

  /** Sequential composition of two raising functions: the second runs on
      the first's result; a raise from either ends the composition. */
  function AndThen<T, U, V>(f: ThrowableFunction<T, U>, g: ThrowableFunction<U, V>): (h: ThrowableFunction<T, V>)
  {
    (x: Nullable<T>) =>
      match f(x)
      case Threw(e) => Threw(e)
      case Returned(y) => g(y)
  }

  /** Mapping twice is mapping once with the composed mapper. */
  lemma MapComposition<T, U, V>(t: Try<T>, f: ThrowableFunction<T, U>, g: ThrowableFunction<U, V>)
    ensures Map(Map(t, NonNull(f)), NonNull(g)) == Map(t, NonNull(AndThen(f, g)))
  {
  }

  /** `flatMap(Try::success)` is the receiver itself. */
  lemma FlatMapRightIdentity<T>(t: Try<T>)
    ensures FlatMap(t, NonNull((x: Nullable<T>) => Returned(SuccessOf(x)))) == t
  {
  }

  /** `success(v).flatMap(f)` is what f makes of v, with a raise captured. */
  lemma FlatMapLeftIdentity<T, U>(v: Nullable<T>, f: TryFunction<T, U>)
    ensures f(v).Returned? ==> FlatMap(SuccessOf(v), NonNull(f)) == f(v).value
    ensures f(v).Threw? ==> FlatMap(SuccessOf(v), NonNull(f)) == Failure(f(v).exception)
  {
  }

  /** The Try-valued function that runs `f` and then flat-maps `g` over
      its result, capturing a raise from `f`. */
  function FlatThen<T, U, V>(f: TryFunction<T, U>, g: TryFunction<U, V>): TryFunction<T, V>
  {
    (x: Nullable<T>) =>
      match f(x)
      case Threw(e) => Returned(Failure(e))
      case Returned(u) => Returned(FlatMap(u, NonNull(g)))
  }

  /** Flat-mapping is associative. */
  lemma FlatMapAssociative<T, U, V>(t: Try<T>, f: TryFunction<T, U>, g: TryFunction<U, V>)
    ensures FlatMap(FlatMap(t, NonNull(f)), NonNull(g)) == FlatMap(t, NonNull(FlatThen(f, g)))
  {
  }

  /** `map(f)` is `flatMap` of the captured mapper. */
  lemma MapIsFlatMapOfCapture<T, U>(t: Try<T>, f: ThrowableFunction<T, U>)
    ensures Map(t, NonNull(f)) == FlatMap(t, NonNull((x: Nullable<T>) => Returned(Of(NonNull(() => f(x))))))
  {
  }

  /** The eager and the lazy `orElse` agree when the supplier hands back a
      fixed value. */
  lemma OrElseGetOfConstant<T>(t: Try<T>, other: Nullable<T>)
    ensures OrElseGet(t, NonNull(() => Returned(other))) == Returned(OrElse(t, other))
  {
  }
}
