# Try and throwing functional interfaces, modelled in Dafny

This project models the core of `java-throwable-utils`:

- the `Try<T>` container (`io.github.suppierk.java.Try`);
- the `minBy`/`maxBy` factories of `ThrowableBinaryOperator`;
- the `test` wrapper and the `isEqual` factory of `ThrowablePredicate`.

`Try<T>` is an immutable value. A `Success` holds a value, which may be
null. A `Failure` holds a non-null throwable. Every operation is a case
split over these two variants, so the whole model is pure: datatypes,
functions and lemmas.

How Java concepts become Dafny (module `JavaLang`, `java_lang.dfy`):

- A Java reference is `Nullable<T> = Null | NonNull(referent)`.
- `java.util.Optional` is `Optional<T> = Empty | Present(get)`.
- A throwable is `Exn`. The library itself only creates
  `NullPointer` (from `Objects.requireNonNull`) and `NoSuchElement`. Every
  other throwable comes from caller code and is `Other(id)`.
- A call that may raise returns `Outcome<X> = Returned(value) | Threw(exception)`.
  Rethrowing a caught throwable "as unchecked" is `Threw` of the same value.
- A caller-supplied supplier, function, predicate, consumer or comparator
  is a Dafny function returning an `Outcome`. A parameter that Java lets be
  null is wrapped in `Nullable`.

Which operations capture a raise and which let it escape:

- An operation that captures a raise returns a `Try`: `of`,
  `fromOptional`, `filter`, `map`, `flatMap`.
- An operation that can raise synchronously returns an `Outcome`:
  `failure`, `get`, `orElse(Supplier)`, `orElseTry`, and the operators that
  `minBy`/`maxBy` build.
- `ifSuccess`, `ifFailure` and `ifSuccessOrElse` return a `Dispatch`. It
  records which consumer ran, with which argument, and whether the call
  returned or raised.
- Java's `orElse(Supplier)` overload is named `OrElseGet`, because Dafny
  has no overloading. The name follows the message of its null check.

The `orElseTry` chain `Try.of(a).orElseTry(b).orElseTry(c)…` is the
function `TryChains.OrElseTryChain`. The inductive lemmas about it are in
`try_chain.dfy`. Algebraic laws relating the operations are in
`try_laws.dfy`.

Where the code and its Javadoc disagree, this model follows the code:

- Null values. The Javadoc of `success` says it throws
  NullPointerException for a null value (Try.java:100), and the field of
  `Success` is documented as non-null (Try.java:249). The code stores
  whatever it is given (Try.java:257-259), and the repository's tests expect
  `success(null)` not to throw and `of(() -> null)` to be a Success holding
  null (TryTest.java:59-66, 103). `Success` therefore carries a
  `Nullable<T>`.
- `fromOptional`. Its Javadoc says it throws NullPointerException for a
  null optional (Try.java:80). The code catches that exception and returns
  it as a Failure (Try.java:89-90), and so does `Tries.FromOptional`.
- `map`. Its Javadoc says a null mapper result gives a failed Try
  (Try.java:173-174). The code wraps the result with `of`, which keeps
  null, so the result is Success(null). `TryLaws.MapToNullIsSuccessOfNull`
  states this.

## Model

| member | source | states |
|---|---|---|
| Tries.Of | src/main/java/io/github/suppierk/java/Try.java:65-71 | A null supplier gives Failure(NullPointerException). Otherwise `get` of the result is exactly the supplier's outcome: the same value (null included) or the same throwable. `of` never raises. |
| Tries.FromOptional | src/main/java/io/github/suppierk/java/Try.java:82-92 | A null optional gives Failure(NullPointerException). An empty one gives Failure(NoSuchElementException). Present(x) gives Success(x). It never raises. |
| Tries.SuccessOf | src/main/java/io/github/suppierk/java/Try.java:102-104 | `success(v)` is always a Success, null included, and its `get` returns v. |
| Tries.FailureOf | src/main/java/io/github/suppierk/java/Try.java:114-116 | `failure(null)` raises NullPointerException synchronously. `failure(t)` is a Failure whose `get` re-raises exactly t. |
| Tries.Get | src/main/java/io/github/suppierk/java/Try.java:118-126 | `get` returns normally exactly on a Success, with its value. On a Failure it raises the stored throwable unchanged. |
| Tries.IsSuccess | src/main/java/io/github/suppierk/java/Try.java:128-131 | True exactly when `get` would return normally. |
| Tries.IsFailure | src/main/java/io/github/suppierk/java/Try.java:133-136 | The exact complement of `isSuccess`. True exactly when `get` would raise. |
| Tries.ToOptional | src/main/java/io/github/suppierk/java/Try.java:331-333 | Present exactly for a Success with a non-null value, and then it holds that value. Empty for Success(null) and for every Failure. |
| Tries.IfSuccess | src/main/java/io/github/suppierk/java/Try.java:138-143 | On a Success the consumer runs with the value, and its own raise propagates. A null consumer raises NullPointerException. On a Failure nothing runs, even for a null consumer. |
| Tries.IfFailure | src/main/java/io/github/suppierk/java/Try.java:145-150 | On a Failure the consumer runs with the stored throwable, and a null consumer raises NullPointerException. On a Success nothing runs, even for a null consumer. |
| Tries.IfSuccessOrElse | src/main/java/io/github/suppierk/java/Try.java:152-160 | Behaves as `ifSuccess` with the value consumer on a Success and as `ifFailure` with the throwable consumer on a Failure. The consumer of the other side never runs. |
| Tries.Filter | src/main/java/io/github/suppierk/java/Try.java:301-311 | A Failure is returned unchanged. A Success survives exactly when the predicate returns true. A false predicate gives Failure(NoSuchElementException). A raising predicate gives Failure of its throwable. A null predicate gives Failure(NullPointerException). A Success result is always the receiver. |
| Tries.Map | src/main/java/io/github/suppierk/java/Try.java:315-317 | On a Failure the throwable carries over. On a Success, `get` of the result is exactly the mapper's outcome on the value, so a raise is captured. A null mapper gives Failure(NullPointerException). |
| Tries.FlatMap | src/main/java/io/github/suppierk/java/Try.java:321-327 | On a Failure the throwable carries over. On a Success the mapper's Try is the result as it is. A raising mapper gives Failure of its throwable. A null mapper gives Failure(NullPointerException). |
| Tries.OrElse | src/main/java/io/github/suppierk/java/Try.java:218-224 | The value of a Success, or `other` for a Failure. It never raises. |
| Tries.OrElseGet | src/main/java/io/github/suppierk/java/Try.java:234-241 | Models `orElse(Supplier)`. On a Success it gives the value and does not consult the supplier, even a null one. On a Failure it gives the supplier's outcome. On a Failure a null supplier raises NullPointerException, uncaptured. |
| Tries.OrElseTry | src/main/java/io/github/suppierk/java/Try.java:204-210 | A null supplier raises NullPointerException on either variant. Otherwise a Success is kept as it is. A Failure becomes a Try whose `get` is the supplier's outcome. |
| Predicates.Test | src/main/java/io/github/suppierk/java/util/function/ThrowablePredicate.java:61-67 | `test` returns what `testUnsafe` returns, and re-raises exactly the throwable `testUnsafe` raised, unwrapped. |
| Predicates.IsEqual | src/main/java/io/github/suppierk/java/util/function/ThrowablePredicate.java:79-81 | The predicate never raises. It accepts y exactly when y equals the target in the sense of Objects.equals: both null, or both non-null and equal. |
| Predicates.IsEqualNullAcceptsOnlyNull | src/test/java/io/github/suppierk/java/ThrowableFunctionsCallTest.java:110-112 | `isEqual(null)` accepts null and rejects every non-null argument. |
| Predicates.IsEqualNonNullTarget | src/test/java/io/github/suppierk/java/ThrowableFunctionsCallTest.java:109-113 | `isEqual(x)` accepts x, and rejects null and every value unequal to x. |
| Predicates.IsEqualSymmetric | src/main/java/io/github/suppierk/java/util/function/ThrowablePredicate.java:69-81 | `isEqual(x)` accepts y exactly when `isEqual(y)` accepts x. |
| BinaryOperators.MinBy | src/main/java/io/github/suppie/toolset/java/util/function/ThrowableBinaryOperator.java:60-63 | A null comparator raises NullPointerException when the operator is built. The operator returns a when the comparison is <= 0 and b otherwise. It raises whatever the comparator raised. |
| BinaryOperators.MaxBy | src/main/java/io/github/suppie/toolset/java/util/function/ThrowableBinaryOperator.java:75-78 | A null comparator raises NullPointerException when the operator is built. The operator returns a when the comparison is >= 0 and b otherwise. It raises whatever the comparator raised. |
| BinaryOperators.SelectionIsAnOperand | src/main/java/io/github/suppie/toolset/java/util/function/ThrowableBinaryOperator.java:60-78 | A selection that returns gives one of the two operands, never a new value. |
| BinaryOperators.TiesKeepFirstOperand | src/main/java/io/github/suppie/toolset/java/util/function/ThrowableBinaryOperator.java:60-78 | On a tie both `minBy` and `maxBy` return the first operand. |
| BinaryOperators.MinAndMaxSplitStrictPair | src/main/java/io/github/suppie/toolset/java/util/function/ThrowableBinaryOperator.java:60-78 | For a non-zero comparison, `minBy` and `maxBy` together return both operands, one each. |
| BinaryOperators.MaxByIsMinByNegated | src/main/java/io/github/suppie/toolset/java/util/function/ThrowableBinaryOperator.java:60-78 | `maxBy` under the negated comparison is `minBy`, ties included. |
| BinaryOperators.ComparatorErrorPropagates | src/test/java/io/github/suppie/toolset/java/util/ThrowableFunctionsCallTest.java:124-129 | A raise from the comparator comes out of the operator's `apply` unchanged. |
| TryLaws.OfGetRebuildsTry | src/main/java/io/github/suppierk/java/Try.java:365-367 | `of(t::get)` rebuilds t, for either variant. |
| TryLaws.ToOptionalFromOptional | src/main/java/io/github/suppierk/java/Try.java:82-92 | `fromOptional(o).toOptional()` is o. |
| TryLaws.FromOptionalToOptional | src/main/java/io/github/suppierk/java/Try.java:331-333 | `fromOptional(t.toOptional())` is t for a Success with a non-null value. Otherwise it is Failure(NoSuchElementException), because the conversion is lossy. |
| TryLaws.FilterIdempotent | src/main/java/io/github/suppierk/java/Try.java:301-311 | Filtering twice with one predicate is filtering once, for a predicate that answers the same on both calls. |
| TryLaws.FilterIgnoresPredicateOnFailure | src/main/java/io/github/suppierk/java/Try.java:403-405 | A Failure is unchanged by `filter`, whatever the predicate. |
| TryLaws.FilterByIsEqual | src/main/java/io/github/suppierk/java/Try.java:301-311 | `filter(isEqual(v))` keeps Success(v) and rejects a Success of any other value with NoSuchElementException. |
| TryLaws.MapIdentity | src/main/java/io/github/suppierk/java/Try.java:410-412 | `map(identity)` returns the receiver, on either variant. |
| TryLaws.MapToNullIsSuccessOfNull | src/main/java/io/github/suppierk/java/Try.java:315-317 | A mapper that returns null gives Success(null), not the failed Try the Javadoc at lines 173-174 describes. |
| TryLaws.MapComposition | src/main/java/io/github/suppierk/java/Try.java:315-317 | `map(f).map(g)` equals `map` of f followed by g. |
| TryLaws.FlatMapRightIdentity | src/main/java/io/github/suppierk/java/Try.java:321-327 | `flatMap(Try::success)` returns the receiver. |
| TryLaws.FlatMapLeftIdentity | src/main/java/io/github/suppierk/java/Try.java:321-327 | `success(v).flatMap(f)` is f's Try, or a Failure of f's throwable. |
| TryLaws.FlatMapAssociative | src/main/java/io/github/suppierk/java/Try.java:321-327 | `flatMap` is associative. |
| TryLaws.MapIsFlatMapOfCapture | src/main/java/io/github/suppierk/java/Try.java:315-327 | `map(f)` equals `flatMap(x -> of(() -> f(x)))`. |
| TryLaws.OrElseGetOfConstant | src/main/java/io/github/suppierk/java/Try.java:218-241 | The lazy `orElse` with a constant supplier agrees with the eager `orElse`. |
| TryChains.OrElseTryChain | src/main/java/io/github/suppierk/java/Try.java:429-431 | A chain of `orElseTry` calls raises, with NullPointerException, exactly when some fallback is null. Once the chain reaches a Success, it keeps that Success. |
| TryChains.FirstReturningFallbackWins | src/main/java/io/github/suppierk/java/Try.java:429-431 | Start from a Failure with all fallbacks non-null. If fallbacks 0..k-1 raise and fallback k returns, the chain is a Success of fallback k's value, whatever the later fallbacks are. |
| TryChains.AllFallbacksRaise | src/main/java/io/github/suppierk/java/Try.java:429-431 | Start from a Failure. If every fallback raises, the chain is a Failure with the last fallback's throwable. |
| TryChains.FirstSucceedingAttemptWins | src/test/java/io/github/suppierk/java/util/TryTest.java:250-277 | `of(a0).orElseTry(a1)…` with non-null fallbacks is a Success of the first attempt that returns. A null a0 counts as an attempt that raises, since `of(null)` is a NullPointerException Failure. |
| TryChains.LaterFallbacksAreNotRun | src/main/java/io/github/suppierk/java/Try.java:337-340 | After a chain reaches a Success, appending further non-null fallbacks changes nothing. |

## Left out

- The other `Throwable*` adapter interfaces (functions, consumers, suppliers, runnables, comparators of every arity) are not modelled one by one. Each is a "call the unsafe method, rethrow" wrapper. Here they are the function types returning an `Outcome`; `Predicates.Test` is the one wrapper modelled explicitly.
- The double-, int- and long-typed variants are left out. They are primitive signatures around the same wrapper, and floating point is not modelled.
- `ExceptionSuppressor.asUnchecked` is a type-erasure trick of the Java compiler. It has no counterpart here. Rethrowing a throwable is `Threw` of the same `Exn`.
- `UnsafeFunctions` is left out. It holds only identity upcasts.
- Reference identity is left out. Java "returns `this`"; the model returns an equal datatype value. Identity hash codes and synchronisation on `Try` instances are meaningless for a value-based class.
- A `flatMap` mapper that returns a null `Try` cannot be expressed: the mapper's result type is `Try`, not `Nullable<Try>`. The Java code passes such a null through unchanged.
- `Predicates.IsEqual`: Object.equals is taken to be value equality on the model's values. A user-defined `equals` that is not an equivalence, or that raises, is not modelled. The target and the argument share one type, whereas Java types the target as Object.
- Every caller-supplied callback is a deterministic function without effects. This covers suppliers, mappers, `flatMap` mappers, predicates, comparators and consumers. The model cannot count how many times a callback runs, nor observe that it runs at all. "`of` calls its supplier exactly once", "`filter` on a Failure never calls the predicate" and "a fallback after the first Success never runs" are stated instead as "the result does not depend on that callback". Laws such as `TryLaws.FilterIdempotent` hold only for callbacks that answer the same on every call; a Java callback with state can break them.
- Side effects of consumers are not modelled. A consumer is a function whose outcome is recorded in the `Dispatch` result, together with which consumer ran and with what argument.
- The older `io.github.suppie.toolset` / `com.github.suppie` `Try` classes are not part of this model. Their tests expect null values to be rejected.
- `Throwable` details are abstracted to an identity: message, cause chain and stack trace. Carrying the same `Exn` value stands for carrying the same object.
- Comparator results are unbounded integers. The model's `BinaryOperators.Negated` therefore has no `Integer.MIN_VALUE` overflow. It is a device for stating the `minBy`/`maxBy` duality and is not part of the library.
