/**
 * Thrown values and the root-cause unwrapping applied before an error is
 * reported (src/utils.ts).
 */
module Errors {
  import opened Wrappers

  /**
   * A thrown JavaScript error, as far as unwrapping looks at it.
   * `isAggregate` is `err instanceof AggregateError`; `errorsIsArray` is
   * `Array.isArray(err.errors)` and `errors` is that array (empty when it is
   * not an array); `cause` is `err.cause` when it is an error object.
   */
  datatype ThrownError = ThrownError(
    name: string,
    message: string,
    isAggregate: bool,
    errorsIsArray: bool,
    errors: seq<ThrownError>,
    cause: Option<ThrownError>)

  /** An AggregateError whose `errors` is a non-empty array. */
  predicate HasNestedErrors(e: ThrownError) {
    e.isAggregate && e.errorsIsArray && |e.errors| > 0
  }

  /** Neither the error nor its cause is an AggregateError with nested errors. */
  predicate IsRootCause(e: ThrownError) {
    !HasNestedErrors(e) && !(e.cause.Some? && HasNestedErrors(e.cause.value))
  }

  /** A plain error with the given name and message: no nested errors, no cause. */
  function PlainError(name: string, message: string): (e: ThrownError)
    ensures IsRootCause(e) && e.name == name && e.message == message
  {
    ThrownError(name, message, false, false, [], None)
  }

  /**
   * `unwrapError`: follow the first nested error of an AggregateError, or of
   * an AggregateError found in `cause`, until neither applies.
   */
  function UnwrapError(e: ThrownError): (r: ThrownError)
    ensures IsRootCause(r)
    ensures IsRootCause(e) ==> r == e
  {
    if HasNestedErrors(e) then
      UnwrapError(e.errors[0])
    else if e.cause.Some? && HasNestedErrors(e.cause.value) then
      UnwrapError(e.cause.value.errors[0])
    else
      e
  }

  /** The value is returned unchanged exactly when it is already a root cause. */
  lemma UnwrapFixpoint(e: ThrownError)
    ensures UnwrapError(e) == e <==> IsRootCause(e)
  {
  }

  /** Unwrapping twice is unwrapping once. */
  lemma UnwrapIdempotent(e: ThrownError)
    ensures UnwrapError(UnwrapError(e)) == UnwrapError(e)
  {
  }

  /**
   * The error reached by following only first elements, either of `errors`
   * or of `cause.errors`, starting at `e`: `Reaches(e, r, n)` when `r` is
   * reached in `n` such steps.
   */
  ghost predicate Reaches(e: ThrownError, r: ThrownError, n: nat)
    decreases n
  {
    if n == 0 then r == e
    else if HasNestedErrors(e) then Reaches(e.errors[0], r, n - 1)
    else if e.cause.Some? && HasNestedErrors(e.cause.value) then Reaches(e.cause.value.errors[0], r, n - 1)
    else false
  }

  /**
   * The result is found along the chain of first nested errors: some
   * number of first-element steps leads from `e` to it, none of them looks
   * past index 0, and it is the first root cause on that chain.
   */
  lemma {:induction false} UnwrapFollowsFirstErrors(e: ThrownError)
    ensures exists n: nat :: Reaches(e, UnwrapError(e), n)
  {
    if HasNestedErrors(e) {
      UnwrapFollowsFirstErrors(e.errors[0]);
      var n: nat :| Reaches(e.errors[0], UnwrapError(e.errors[0]), n);
      assert Reaches(e, UnwrapError(e), n + 1);
    } else if e.cause.Some? && HasNestedErrors(e.cause.value) {
      var c := e.cause.value.errors[0];
      UnwrapFollowsFirstErrors(c);
      var n: nat :| Reaches(c, UnwrapError(c), n);
      assert Reaches(e, UnwrapError(e), n + 1);
    } else {
      assert UnwrapError(e) == e;
      assert Reaches(e, e, 0);
    }
  }

  /** Along the first-error chain, the only root cause is the unwrapped result. */
  lemma {:induction false} UnwrapIsFirstRootCause(e: ThrownError, r: ThrownError, n: nat)
    requires Reaches(e, r, n)
    requires IsRootCause(r)
    ensures r == UnwrapError(e)
    decreases n
  {
    if n > 0 {
      if HasNestedErrors(e) {
        UnwrapIsFirstRootCause(e.errors[0], r, n - 1);
      } else {
        UnwrapIsFirstRootCause(e.cause.value.errors[0], r, n - 1);
      }
    }
  }

  /** An AggregateError wrapping root causes unwraps to the first of them. */
  lemma UnwrapAggregateOfPlain(name: string, first: ThrownError, rest: seq<ThrownError>)
    requires IsRootCause(first)
    ensures UnwrapError(ThrownError(name, "", true, true, [first] + rest, None)) == first
  {
  }
}
