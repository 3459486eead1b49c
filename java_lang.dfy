/** The few pieces of the Java runtime that the library's behaviour depends on:
    nullable references, java.util.Optional, throwables, and the two ways a
    call can end (it returns, or it raises). */
module JavaLang {

  /** A Java reference of type T: either null or a reference to a T. */
  datatype Nullable<T> = Null | NonNull(referent: T)

  /** java.util.Optional: empty, or present with a non-null value. */
  datatype Optional<T> = Empty | Present(get: T)

  /** A non-null Throwable. The library itself only ever manufactures
      NullPointerException (from Objects.requireNonNull) and
      NoSuchElementException; every other throwable comes from caller code
      and is told apart by an identity. */
  datatype Exn = NullPointer | NoSuchElement | Other(id: nat)

  /** How a call ends: it returns a value, or it raises a throwable. */
  datatype Outcome<X> = Returned(value: X) | Threw(exception: Exn)

  /** Objects.requireNonNull: hands the reference on, or raises
      NullPointerException for null. */
  function RequireNonNull<X>(ref: Nullable<X>): (r: Outcome<X>)
    ensures r.Returned? <==> ref.NonNull?
    ensures r.Returned? ==> NonNull(r.value) == ref
    ensures r.Threw? ==> r.exception == NullPointer
  {
    match ref
    case Null => Threw(NullPointer)
    case NonNull(x) => Returned(x)
  }
}
