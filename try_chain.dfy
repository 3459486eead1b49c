/** Chains of fallbacks, `Try.of(a).orElseTry(b).orElseTry(c)...`: every
    fallback is checked for null, but a fallback runs only while the chain
    has not yet succeeded, so the chain yields the first attempt that
    returns. */
module TryChains {
  import opened JavaLang
  import opened Tries

  /** `t.orElseTry(f0).orElseTry(f1)...`: left to right, stopping at the
      first NullPointerException. A null fallback anywhere raises, whatever
      the variant reached by then; a Success, once reached, is kept. */
  function OrElseTryChain<T>(t: Try<T>, fallbacks: seq<Nullable<ThrowableSupplier<T>>>): (r: Outcome<Try<T>>)
    ensures r.Returned? <==> forall i :: 0 <= i < |fallbacks| ==> fallbacks[i].NonNull?
    ensures r.Threw? ==> r.exception == NullPointer
    ensures r.Returned? && t.Success? ==> r.value == t
    decreases |fallbacks|
  {
    if fallbacks == [] then Returned(t)
    else
      match OrElseTry(t, fallbacks[0])
      case Threw(e) => Threw(e)
      case Returned(next) =>
        var r := OrElseTryChain(next, fallbacks[1..]);
        assert forall i :: 1 <= i < |fallbacks| ==> fallbacks[i] == fallbacks[1..][i - 1];
        r
  }

  /** When every fallback is non-null, the first k raise and the k-th
      returns, a chain starting from a Failure yields a Success of the k-th
      fallback's value; what the later fallbacks would do makes no
      difference, so none of them runs. */
  lemma {:induction false} FirstReturningFallbackWins<T>(
    t: Try<T>, fallbacks: seq<Nullable<ThrowableSupplier<T>>>, k: nat)
    requires t.Failure?
    requires forall i :: 0 <= i < |fallbacks| ==> fallbacks[i].NonNull?
    requires k < |fallbacks|
    requires forall i :: 0 <= i < k ==> fallbacks[i].referent().Threw?
    requires fallbacks[k].referent().Returned?
    ensures OrElseTryChain(t, fallbacks) == Returned(Success(fallbacks[k].referent().value))
    decreases k
  {
    var next := Of(fallbacks[0]);
    assert OrElseTry(t, fallbacks[0]) == Returned(next);
    assert forall i :: 0 <= i < |fallbacks| - 1 ==> fallbacks[1..][i] == fallbacks[i + 1];
    if k == 0 {
      assert next == Success(fallbacks[0].referent().value);
    } else {
      assert next.Failure?;
      FirstReturningFallbackWins(next, fallbacks[1..], k - 1);
    }
  }

  /** When every fallback is non-null and raises, a chain starting from a
      Failure yields a Failure with the last fallback's throwable. */
  lemma {:induction false} AllFallbacksRaise<T>(t: Try<T>, fallbacks: seq<Nullable<ThrowableSupplier<T>>>)
    requires t.Failure?
    requires |fallbacks| > 0
    requires forall i :: 0 <= i < |fallbacks| ==> fallbacks[i].NonNull? && fallbacks[i].referent().Threw?
    ensures OrElseTryChain(t, fallbacks) == Returned(Failure(fallbacks[|fallbacks| - 1].referent().exception))
    decreases |fallbacks|
  {
    var next := Of(fallbacks[0]);
    assert OrElseTry(t, fallbacks[0]) == Returned(next);
    if |fallbacks| > 1 {
      assert forall i :: 0 <= i < |fallbacks| - 1 ==> fallbacks[1..][i] == fallbacks[i + 1];
      AllFallbacksRaise(next, fallbacks[1..]);
    }
  }

  /** `Try.of(a0).orElseTry(a1)...orElseTry(an)`: every fallback a1..an
      non-null, a0 possibly null (then `of` gives a NullPointerException
      Failure, so a null a0 counts as an attempt that raises). When
      a0..a(k-1) raise and ak returns, the whole expression is a Success of
      ak's value. */
  lemma {:induction false} FirstSucceedingAttemptWins<T>(attempts: seq<Nullable<ThrowableSupplier<T>>>, k: nat)
    requires forall i :: 1 <= i < |attempts| ==> attempts[i].NonNull?
    requires k < |attempts|
    requires forall i :: 0 <= i < k ==> attempts[i].Null? || attempts[i].referent().Threw?
    requires attempts[k].NonNull? && attempts[k].referent().Returned?
    ensures OrElseTryChain(Of(attempts[0]), attempts[1..]) == Returned(Success(attempts[k].referent().value))
  {
    var rest := attempts[1..];
    assert forall i :: 0 <= i < |rest| ==> rest[i] == attempts[i + 1];
    if k > 0 {
      FirstReturningFallbackWins(Of(attempts[0]), rest, k - 1);
    }
  }

  /** Once a chain has produced a Success, appending further non-null
      fallbacks changes nothing: none of them is run. */
  lemma {:induction false} LaterFallbacksAreNotRun<T>(
    t: Try<T>, fallbacks: seq<Nullable<ThrowableSupplier<T>>>, later: seq<Nullable<ThrowableSupplier<T>>>)
    requires OrElseTryChain(t, fallbacks).Returned? && OrElseTryChain(t, fallbacks).value.Success?
    requires forall i :: 0 <= i < |later| ==> later[i].NonNull?
    ensures OrElseTryChain(t, fallbacks + later) == OrElseTryChain(t, fallbacks)
    decreases |fallbacks|
  {
    if fallbacks == [] {
      assert fallbacks + later == later;
    } else {
      assert (fallbacks + later)[0] == fallbacks[0];
      assert (fallbacks + later)[1..] == fallbacks[1..] + later;
      var next := OrElseTry(t, fallbacks[0]).value;
      LaterFallbacksAreNotRun(next, fallbacks[1..], later);
    }
  }
}
