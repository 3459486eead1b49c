/** ThrowableBinaryOperator's two factories, `minBy` and `maxBy`: each
    checks its comparator once, then returns an operator that picks one of
    its two (possibly null) operands by a single comparison. */
module BinaryOperators {
  import opened JavaLang

  /** Comparator.compare: a sign-valued comparison that may raise. */
  type Comparator<!T> = (Nullable<T>, Nullable<T>) -> Outcome<int>

  /** ThrowableBinaryOperator.apply. */
  type BinaryOperator<!T> = (Nullable<T>, Nullable<T>) -> Outcome<Nullable<T>>

  /** `minBy(comparator)`: NullPointerException at construction for a null
      comparator; otherwise an operator that keeps the first operand when it
      compares less than or equal to the second, and the second otherwise.
      A comparator that raises makes the operator raise the same throwable. */
  function MinBy<T(!new)>(comparator: Nullable<Comparator<T>>): (r: Outcome<BinaryOperator<T>>)
    ensures r.Threw? <==> comparator.Null?
    ensures r.Threw? ==> r.exception == NullPointer
    ensures r.Returned? ==> forall a, b ::
      r.value(a, b) == match comparator.referent(a, b)
                       case Threw(e) => Threw(e)
                       case Returned(k) => if k <= 0 then Returned(a) else Returned(b)
  {
    match RequireNonNull(comparator)
    case Threw(e) => Threw(e)
    case Returned(compare) =>
      Returned((a: Nullable<T>, b: Nullable<T>) =>
        match compare(a, b)
        case Threw(e) => Threw(e)
        case Returned(k) => Returned(if k <= 0 then a else b))
  }

  /** `maxBy(comparator)`: as MinBy, but the first operand is kept when it
      compares greater than or equal to the second. */
  function MaxBy<T(!new)>(comparator: Nullable<Comparator<T>>): (r: Outcome<BinaryOperator<T>>)
    ensures r.Threw? <==> comparator.Null?
    ensures r.Threw? ==> r.exception == NullPointer
    ensures r.Returned? ==> forall a, b ::
      r.value(a, b) == match comparator.referent(a, b)
                       case Threw(e) => Threw(e)
                       case Returned(k) => if k >= 0 then Returned(a) else Returned(b)
  {
    match RequireNonNull(comparator)
    case Threw(e) => Threw(e)
    case Returned(compare) =>
      Returned((a: Nullable<T>, b: Nullable<T>) =>
        match compare(a, b)
        case Threw(e) => Threw(e)
        case Returned(k) => Returned(if k >= 0 then a else b))
  }

  /** Whatever the comparator says, a selection that returns gives back one
      of the two operands, never a new value. */
  lemma SelectionIsAnOperand<T(!new)>(c: Comparator<T>, a: Nullable<T>, b: Nullable<T>)
    ensures MinBy(NonNull(c)).Returned? && MaxBy(NonNull(c)).Returned?
    ensures MinBy(NonNull(c)).value(a, b).Returned? ==> MinBy(NonNull(c)).value(a, b).value in {a, b}
    ensures MaxBy(NonNull(c)).value(a, b).Returned? ==> MaxBy(NonNull(c)).value(a, b).value in {a, b}
  {
  }

  /** On a tie both operators return the first operand. */
  lemma TiesKeepFirstOperand<T(!new)>(c: Comparator<T>, a: Nullable<T>, b: Nullable<T>)
    requires c(a, b) == Returned(0)
    ensures MinBy(NonNull(c)).Returned? && MinBy(NonNull(c)).value(a, b) == Returned(a)
    ensures MaxBy(NonNull(c)).Returned? && MaxBy(NonNull(c)).value(a, b) == Returned(a)
  {
  }

  /** Away from ties the two operators split the pair: one returns each
      operand. */
  lemma MinAndMaxSplitStrictPair<T(!new)>(c: Comparator<T>, a: Nullable<T>, b: Nullable<T>)
    requires c(a, b).Returned? && c(a, b).value != 0
    ensures MinBy(NonNull(c)).Returned? && MaxBy(NonNull(c)).Returned?
    ensures MinBy(NonNull(c)).value(a, b).Returned? && MaxBy(NonNull(c)).value(a, b).Returned?
    ensures multiset{MinBy(NonNull(c)).value(a, b).value, MaxBy(NonNull(c)).value(a, b).value}
         == multiset{a, b}
  {
  }

  /** The comparator with every answer negated; raises where `c` raises. */
  function Negated<T>(c: Comparator<T>): Comparator<T>
  {
    (a: Nullable<T>, b: Nullable<T>) =>
      match c(a, b)
      case Threw(e) => Threw(e)
      case Returned(k) => Returned(-k)
  }

  /** maxBy is minBy under the negated comparison, ties included: both keep
      the first operand when the comparison is zero. */
  lemma MaxByIsMinByNegated<T(!new)>(c: Comparator<T>, a: Nullable<T>, b: Nullable<T>)
    ensures MinBy(NonNull(c)).Returned? && MaxBy(NonNull(Negated(c))).Returned?
    ensures MaxBy(NonNull(Negated(c))).value(a, b) == MinBy(NonNull(c)).value(a, b)
  {
  }

  /** A comparator that raises makes both operators raise the same
      throwable from `apply`. */
  lemma ComparatorErrorPropagates<T(!new)>(c: Comparator<T>, a: Nullable<T>, b: Nullable<T>)
    requires c(a, b).Threw?
    ensures MinBy(NonNull(c)).Returned? && MinBy(NonNull(c)).value(a, b) == Threw(c(a, b).exception)
    ensures MaxBy(NonNull(c)).Returned? && MaxBy(NonNull(c)).value(a, b) == Threw(c(a, b).exception)
  {
  }
}
