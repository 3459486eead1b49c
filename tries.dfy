/** The `Try` container: an immutable value that is either a Success holding
    a (possibly null) value or a Failure holding a non-null throwable, with
    its factories, queries, callback dispatch, combinators and recovery
    operators. Every operation that can raise synchronously returns an
    Outcome; every operation that captures a raise returns a Try. */
module Tries {
  import opened JavaLang
  import Predicates

  /** Try.Success keeps whatever value it was given, null included;
      Try.Failure keeps a non-null throwable. */
  datatype Try<T> = Success(value: Nullable<T>) | Failure(exception: Exn)

  /** ThrowableSupplier.get (and java.util.function.Supplier.get). */
  type ThrowableSupplier<T> = () -> Outcome<Nullable<T>>

  /** ThrowableFunction.apply, as used by `map`. */
  type ThrowableFunction<!T, U> = Nullable<T> -> Outcome<Nullable<U>>

  /** A `flatMap` mapper: a ThrowableFunction whose result is a Try. */
  type TryFunction<!T, U> = Nullable<T> -> Outcome<Try<U>>

  /** ThrowableConsumer.accept: it returns nothing, or raises. */
  type ThrowableConsumer<!X> = X -> Outcome<()>

  /** Which consumer a dispatch ran, and with which argument. */
  datatype Invocation<T> =
    | NotInvoked
    | ValueConsumerInvoked(value: Nullable<T>)
    | ThrowableConsumerInvoked(exception: Exn)

  /** The effect of `ifSuccess`, `ifFailure` or `ifSuccessOrElse`: the
      consumer it ran (if any) and how the call ended. */
  datatype Dispatch<T> = Dispatch(invoked: Invocation<T>, completion: Outcome<()>)

  // ---------------------------------------------------------------------
  // Factories
  // ---------------------------------------------------------------------

  /** `Try.of(supplier)`: runs the supplier inside a capturing boundary.
      A null supplier, or one that raises, yields a Failure carrying that
      throwable; a supplier that returns (null included) yields a Success
      of its result. `of` itself never raises. */
  function Of<T>(supplier: Nullable<ThrowableSupplier<T>>): (r: Try<T>)
    ensures supplier.Null? ==> r == Failure(NullPointer)
    ensures supplier.NonNull? ==> Get(r) == supplier.referent()
  {
    match RequireNonNull(supplier)
    case Threw(e) => Failure(e)
    case Returned(get) =>
      match get()
      case Returned(v) => SuccessOf(v)
      case Threw(e) => Failure(e)
  }

  /** `Try.fromOptional(optional)`: a Success of the present value, a
      Failure with NoSuchElementException for an empty optional and with
      NullPointerException for a null reference. It never raises. */
  function FromOptional<T>(optional: Nullable<Optional<T>>): (r: Try<T>)
    ensures optional.Null? ==> r == Failure(NullPointer)
    ensures optional == NonNull(Empty) ==> r == Failure(NoSuchElement)
    ensures optional.NonNull? && optional.referent.Present? ==>
              r.Success? && r.value == NonNull(optional.referent.get)
  {
    match RequireNonNull(optional)
    case Threw(e) => Failure(e)
    case Returned(o) =>
      match o
      case Present(x) => SuccessOf(NonNull(x))
      case Empty => Failure(NoSuchElement)
  }

  /** `Try.success(value)`: always a Success, whose `get` hands the value
      back unchanged, null included. */
  function SuccessOf<T>(value: Nullable<T>): (r: Try<T>)
    ensures IsSuccess(r)
    ensures Get(r) == Returned(value)
  {
    Success(value)
  }

  /** `Try.failure(throwable)`: raises NullPointerException for null;
      otherwise a Failure whose `get` re-raises exactly that throwable. */
  function FailureOf<T>(throwable: Nullable<Exn>): (r: Outcome<Try<T>>)
    ensures r.Threw? <==> throwable.Null?
    ensures r.Threw? ==> r.exception == NullPointer
    ensures r.Returned? ==> IsFailure(r.value) && Get(r.value) == Threw(throwable.referent)
  {
    match RequireNonNull(throwable)
    case Threw(e) => Threw(e)
    case Returned(t) => Returned(Failure(t))
  }

  // ---------------------------------------------------------------------
  // Queries
  // ---------------------------------------------------------------------

  /** `get()`: a Success returns its value; a Failure re-raises its stored
      throwable as is, without wrapping it. */
  function Get<T>(t: Try<T>): (r: Outcome<Nullable<T>>)
    ensures r.Returned? <==> t.Success?
    ensures t.Success? ==> r.value == t.value
    ensures t.Failure? ==> r.exception == t.exception
  {
    match t
    case Success(v) => Returned(v)
    case Failure(e) => Threw(e)
  }

  /** `isSuccess()`: true exactly when `get()` would return normally. */
  function IsSuccess<T>(t: Try<T>): (b: bool)
    ensures b <==> Get(t).Returned?
  {
    match t
    case Success(_) => true
    case Failure(_) => false
  }

  /** `isFailure()`: the exact complement of `isSuccess()`; true exactly
      when `get()` would raise. */
  function IsFailure<T>(t: Try<T>): (b: bool)
    ensures b == !IsSuccess(t)
    ensures b <==> Get(t).Threw?
  {
    match t
    case Success(_) => false
    case Failure(_) => true
  }

  /** `toOptional()`: `Optional.ofNullable(get())` on a Success, empty on a
      Failure; the throwable is dropped. */
  function ToOptional<T>(t: Try<T>): (r: Optional<T>)
    ensures r.Present? <==> t.Success? && t.value.NonNull?
    ensures r.Present? ==> Get(t) == Returned(NonNull(r.get))
  {
    match t
    case Success(Null) => Empty
    case Success(NonNull(x)) => Present(x)
    case Failure(_) => Empty
  }

  // ---------------------------------------------------------------------
  // Callback dispatch
  // ---------------------------------------------------------------------

  /** Runs a (possibly null) consumer on `arg`: NullPointerException for a
      null consumer, otherwise whatever the consumer does. */
  function Accept<T, X>(consumer: Nullable<ThrowableConsumer<X>>, arg: X, invoked: Invocation<T>): Dispatch<T>
  {
    match RequireNonNull(consumer)
    case Threw(e) => Dispatch(NotInvoked, Threw(e))
    case Returned(accept) => Dispatch(invoked, accept(arg))
  }

  /** `ifSuccess(consumer)`: on a Success the consumer runs with the value,
      and a null consumer raises NullPointerException; a raise from the
      consumer propagates. On a Failure nothing runs, even for a null
      consumer. */
  function IfSuccess<T>(t: Try<T>, consumer: Nullable<ThrowableConsumer<Nullable<T>>>): (d: Dispatch<T>)
    ensures t.Failure? ==> d == Dispatch(NotInvoked, Returned(()))
    ensures t.Success? && consumer.Null? ==> d == Dispatch(NotInvoked, Threw(NullPointer))
    ensures t.Success? && consumer.NonNull? ==>
              d.invoked == ValueConsumerInvoked(t.value) && d.completion == consumer.referent(t.value)
  {
    match t
    case Success(v) => Accept(consumer, v, ValueConsumerInvoked(v))
    case Failure(_) => Dispatch(NotInvoked, Returned(()))
  }

  /** `ifFailure(consumer)`: on a Failure the consumer runs with the stored
      throwable (NullPointerException for a null consumer); on a Success
      nothing runs, even for a null consumer. */
  function IfFailure<T>(t: Try<T>, consumer: Nullable<ThrowableConsumer<Exn>>): (d: Dispatch<T>)
    ensures t.Success? ==> d == Dispatch(NotInvoked, Returned(()))
    ensures t.Failure? && consumer.Null? ==> d == Dispatch(NotInvoked, Threw(NullPointer))
    ensures t.Failure? && consumer.NonNull? ==>
              d.invoked == ThrowableConsumerInvoked(t.exception) && d.completion == consumer.referent(t.exception)
  {
    match t
    case Success(_) => Dispatch(NotInvoked, Returned(()))
    case Failure(e) => Accept(consumer, e, ThrowableConsumerInvoked(e))
  }

  /** `ifSuccessOrElse(valueConsumer, throwableConsumer)`: exactly the
      consumer that matches the variant is consulted; the other one is
      ignored even when null. */
  function IfSuccessOrElse<T>(
    t: Try<T>,
    valueConsumer: Nullable<ThrowableConsumer<Nullable<T>>>,
    throwableConsumer: Nullable<ThrowableConsumer<Exn>>
  ): (d: Dispatch<T>)
    ensures t.Success? ==> d == IfSuccess(t, valueConsumer)
    ensures t.Failure? ==> d == IfFailure(t, throwableConsumer)
    ensures !d.invoked.ThrowableConsumerInvoked? || t.Failure?
    ensures !d.invoked.ValueConsumerInvoked? || t.Success?
  {
    match t
    case Success(v) => Accept(valueConsumer, v, ValueConsumerInvoked(v))
    case Failure(e) => Accept(throwableConsumer, e, ThrowableConsumerInvoked(e))
  }

  // ---------------------------------------------------------------------
  // Combinators
  // ---------------------------------------------------------------------

  /** `filter(predicate)`: a Failure is returned as it is and the predicate
      is not consulted. On a Success the receiver survives only when the
      predicate accepts its value; a rejection gives NoSuchElementException,
      a raise from the predicate (or a null predicate) is captured into a
      Failure. `filter` itself never raises. */
  function Filter<T>(t: Try<T>, predicateRef: Nullable<Predicates.ThrowablePredicate<T>>): (r: Try<T>)
    ensures t.Failure? ==> r == t
    ensures r.Success? ==> r == t
    ensures t.Success? ==>
              (r.Success? <==> predicateRef.NonNull? && predicateRef.referent(t.value) == Returned(true))
    ensures t.Success? && predicateRef.Null? ==> r == Failure(NullPointer)
    ensures t.Success? && predicateRef.NonNull? && predicateRef.referent(t.value) == Returned(false) ==>
              r == Failure(NoSuchElement)
    ensures t.Success? && predicateRef.NonNull? && predicateRef.referent(t.value).Threw? ==>
              r == Failure(predicateRef.referent(t.value).exception)
  {
    match t
    case Failure(_) => t
    case Success(v) =>
      match RequireNonNull(predicateRef)
      case Threw(e) => Failure(e)
      case Returned(p) =>
        match Predicates.Test(p, v)
        case Threw(e) => Failure(e)
        case Returned(accepted) => if accepted then t else Failure(NoSuchElement)
  }

  /** `map(mapper)`: on a Success it is `Try.of(() -> mapper.apply(get()))`,
      so the mapper's result (null included) becomes the new value and a
      raise from the mapper, or a null mapper, is captured. On a Failure the
      mapper is not consulted and the throwable carries over. */
  function Map<T, U>(t: Try<T>, mapper: Nullable<ThrowableFunction<T, U>>): (r: Try<U>)
    ensures t.Failure? ==> r == Failure(t.exception)
    ensures t.Success? && mapper.Null? ==> r == Failure(NullPointer)
    ensures t.Success? && mapper.NonNull? ==> Get(r) == mapper.referent(t.value)
  {
    match t
    case Failure(e) => Failure(e)
    case Success(v) =>
      Of(NonNull(() =>
        match RequireNonNull(mapper)
        case Threw(e) => Threw(e)
        case Returned(apply) => apply(v)))
  }

  /** `flatMap(mapper)`: on a Success the Try that the mapper returns is the
      result as it is; a raise from the mapper, or a null mapper, is
      captured into a Failure. On a Failure the mapper is not consulted and
      the throwable carries over. */
  function FlatMap<T, U>(t: Try<T>, mapper: Nullable<TryFunction<T, U>>): (r: Try<U>)
    ensures t.Failure? ==> r == Failure(t.exception)
    ensures t.Success? && mapper.Null? ==> r == Failure(NullPointer)
    ensures t.Success? && mapper.NonNull? && mapper.referent(t.value).Returned? ==>
              r == mapper.referent(t.value).value
    ensures t.Success? && mapper.NonNull? && mapper.referent(t.value).Threw? ==>
              r == Failure(mapper.referent(t.value).exception)
  {
    match t
    case Failure(e) => Failure(e)
    case Success(v) =>
      match RequireNonNull(mapper)
      case Threw(e) => Failure(e)
      case Returned(apply) =>
        match apply(v)
        case Returned(u) => u
        case Threw(e) => Failure(e)
  }

  // ---------------------------------------------------------------------
  // Recovery
  // ---------------------------------------------------------------------

  /** `orElse(other)`: the value of a Success, `other` for a Failure. The
      Failure's throwable is swallowed: `orElse` never raises. */
  function OrElse<T>(t: Try<T>, other: Nullable<T>): (r: Nullable<T>)
    ensures t.Success? ==> r == t.value
    ensures t.Failure? ==> r == other
  {
    match Get(t)
    case Returned(v) => v
    case Threw(_) => other
  }

  /** `orElse(Supplier other)`: the value of a Success, without consulting
      `other` (which may then be null). For a Failure the supplier's outcome,
      raises included; a null supplier raises NullPointerException, which is
      not captured. */
  function OrElseGet<T>(t: Try<T>, other: Nullable<ThrowableSupplier<T>>): (r: Outcome<Nullable<T>>)
    ensures t.Success? ==> r == Returned(t.value)
    ensures t.Failure? && other.Null? ==> r == Threw(NullPointer)
    ensures t.Failure? && other.NonNull? ==> r == other.referent()
  {
    match Get(t)
    case Returned(v) => Returned(v)
    case Threw(_) =>
      match RequireNonNull(other)
      case Threw(e) => Threw(e)
      case Returned(get) => get()
  }

  /** `orElseTry(supplier)`: raises NullPointerException for a null supplier
      whatever the variant. Otherwise a Success is kept and the supplier is
      not run; a Failure is replaced by `Try.of(supplier)`. */
  function OrElseTry<T>(t: Try<T>, supplier: Nullable<ThrowableSupplier<T>>): (r: Outcome<Try<T>>)
    ensures r.Threw? <==> supplier.Null?
    ensures r.Threw? ==> r.exception == NullPointer
    ensures r.Returned? && t.Success? ==> r.value == t
    ensures r.Returned? && t.Failure? ==> Get(r.value) == supplier.referent()
  {
    match t
    case Success(_) =>
      (match RequireNonNull(supplier)
       case Threw(e) => Threw(e)
       case Returned(_) => Returned(t))
    case Failure(_) =>
      (match RequireNonNull(supplier)
       case Threw(e) => Threw(e)
       case Returned(_) => Returned(Of(supplier)))
  }
}
