/** ThrowablePredicate: a one-argument boolean test that may raise any
    throwable, its non-throwing `test` entry point and the `isEqual` factory. */
module Predicates {
  import opened JavaLang

  /** The abstract method `testUnsafe`: given a (possibly null) argument it
      answers a boolean or raises. A null predicate reference is a
      Nullable<ThrowablePredicate<T>> at the call sites that accept one. */
  type ThrowablePredicate<!T> = Nullable<T> -> Outcome<bool>

  /** `test(t)`: runs `testUnsafe(t)` and rethrows whatever it raised as an
      unchecked throwable, unwrapped. */
  function Test<T>(testUnsafe: ThrowablePredicate<T>, t: Nullable<T>): (r: Outcome<bool>)
    ensures r.Returned? <==> testUnsafe(t).Returned?
    ensures r.Returned? ==> r.value == testUnsafe(t).value
    ensures r.Threw? ==> r.exception == testUnsafe(t).exception
  {
    match testUnsafe(t)
    case Returned(b) => Returned(b)
    case Threw(e) => Threw(e)
  }

  /** `isEqual(targetRef)`: `Objects::isNull` for a null target, otherwise
      `targetRef::equals`. Object.equals is modelled as value equality, so
      the predicate accepts exactly the arguments that Objects.equals pairs
      with the target, and never raises. */
  function IsEqual<T(==,!new)>(targetRef: Nullable<T>): (p: ThrowablePredicate<T>)
    ensures forall y :: p(y) == Returned(y == targetRef)
  {
    match targetRef
    case Null => (y: Nullable<T>) => Returned(y.Null?)
    case NonNull(target) => (y: Nullable<T>) => Returned(y.NonNull? && target == y.referent)
  }

  /** `isEqual(null)` accepts null and rejects every non-null argument. */
  lemma IsEqualNullAcceptsOnlyNull<T(!new)>(y: Nullable<T>)
    ensures Test(IsEqual(Null), y) == Returned(y.Null?)
  {
  }

  /** For a non-null target x, `isEqual(x)` accepts x itself and rejects null
      and every value unequal to x. */
  lemma IsEqualNonNullTarget<T(!new)>(x: T, y: Nullable<T>)
    ensures Test(IsEqual(NonNull(x)), NonNull(x)) == Returned(true)
    ensures Test(IsEqual(NonNull(x)), Null) == Returned(false)
    ensures y.NonNull? && y.referent != x ==> Test(IsEqual(NonNull(x)), y) == Returned(false)
  {
  }

  /** Equality predicates are symmetric: isEqual(x) accepts y exactly when
      isEqual(y) accepts x, nulls included. */
  lemma IsEqualSymmetric<T(!new)>(x: Nullable<T>, y: Nullable<T>)
    ensures Test(IsEqual(x), y) == Test(IsEqual(y), x)
  {
  }
}
