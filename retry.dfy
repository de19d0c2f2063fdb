/**
 The retry driver `repeat(fn, n, token)`: call `fn` until it succeeds, with an
 attempt budget `n` checked first and a shared cancellation flag checked second,
 before every attempt.

 The environment is given as two functions of the attempt number k (0-based,
 equal to the number of calls of `fn` made so far):
 - `fn(k)` is the outcome of the k-th call of `fn`;
 - `token(k)` is the value of `token.cancelled` read just before that call.
 The flag may flip from false to true at any point between two attempts; the
 model allows any sequence of reads.
 */
module Retry {

  /** Outcome of one call of the wrapped operation; a failure's error is discarded. */
  datatype Attempt<T> = Success(value: T) | Failure

  /** Terminal outcome of a retry sequence. */
  datatype RetryResult<T> =
    | Value(value: T)   // the first successful attempt's value
    | MaxRetries        // thrown as 'max retries reached'
    | Cancelled         // thrown as 'cancelled'

  /** The terminal outcome together with the total number of calls of `fn`. */
  datatype Retried<T> = Retried(result: RetryResult<T>, calls: nat)

  /** Attempts k .. j-1 all started (token not cancelled) and all failed. */
  ghost predicate AllFailed<T>(fn: nat -> Attempt<T>, token: nat -> bool, k: nat, j: nat)
  {
    forall m :: k <= m < j ==> !token(m) && fn(m).Failure?
  }

  /**
   `repeat(fn, n, token)` entered after k calls of `fn` have already been made:
   the budget test, then the cancellation test, then one call; a failure
   recurses with budget n - 1.
   */
  function RepeatFrom<T>(fn: nat -> Attempt<T>, token: nat -> bool, n: nat, k: nat): (r: Retried<T>)
    ensures k <= r.calls <= k + n
    ensures r.result.Cancelled? ==> r.calls < k + n
    ensures r.result.Value? ==> k < r.calls
    decreases n
  {
    if n == 0 then Retried(MaxRetries, k)
    else if token(k) then Retried(Cancelled, k)
    else match fn(k)
      case Success(v) => Retried(Value(v), k + 1)
      case Failure => RepeatFrom(fn, token, n - 1, k + 1)
  }

  /**
   `repeat(fn, n, token)` as first called, no attempt made yet: `fn` is called
   at most n times, and a cancellation stops the driver with budget left.
   */
  function Repeat<T>(fn: nat -> Attempt<T>, n: nat, token: nat -> bool): (r: Retried<T>)
    ensures r.calls <= n
    ensures r.result.Cancelled? ==> r.calls < n
    ensures r.result.Value? ==> 0 < r.calls
  {
    RepeatFrom(fn, token, n, 0)
  }

  /**
   Soundness: whatever the outcome, every attempt before the last one ran and
   failed; a value is the value of the last call, a cancellation was read
   before an attempt inside the budget, and 'max retries' comes only after
   exactly n failed calls.
   */
  lemma {:induction false} RepeatSound<T>(fn: nat -> Attempt<T>, token: nat -> bool, n: nat, k: nat)
    ensures var r := RepeatFrom(fn, token, n, k);
      match r.result
      case Value(v) =>
        AllFailed(fn, token, k, r.calls - 1) && !token(r.calls - 1) && fn(r.calls - 1) == Success(v)
      case Cancelled =>
        AllFailed(fn, token, k, r.calls) && token(r.calls)
      case MaxRetries =>
        r.calls == k + n && AllFailed(fn, token, k, k + n)
    decreases n
  {
    if n > 0 && !token(k) && fn(k).Failure? {
      RepeatSound(fn, token, n - 1, k + 1);
    }
  }

  /**
   When every attempt inside the budget starts and fails, `fn` is called
   exactly n times and the driver gives up with 'max retries reached'.
   */
  lemma {:induction false} RepeatExhausts<T>(fn: nat -> Attempt<T>, token: nat -> bool, n: nat, k: nat)
    requires AllFailed(fn, token, k, k + n)
    ensures RepeatFrom(fn, token, n, k) == Retried(MaxRetries, k + n)
    decreases n
  {
    if n > 0 {
      assert !token(k) && fn(k).Failure?;
      RepeatExhausts(fn, token, n - 1, k + 1);
    }
  }

  /**
   The value returned is that of the first successful attempt: if attempts
   k .. k+j-1 fail, attempt k+j starts and succeeds with v, and j is inside the
   budget, the result is v after j + 1 calls.
   */
  lemma {:induction false} RepeatFirstSuccess<T>(fn: nat -> Attempt<T>, token: nat -> bool, n: nat, k: nat, j: nat, v: T)
    requires j < n
    requires AllFailed(fn, token, k, k + j)
    requires !token(k + j) && fn(k + j) == Success(v)
    ensures RepeatFrom(fn, token, n, k) == Retried(Value(v), k + j + 1)
    decreases j
  {
    if j > 0 {
      assert !token(k) && fn(k).Failure?;
      RepeatFirstSuccess(fn, token, n - 1, k + 1, j - 1, v);
    }
  }

  /**
   Cancellation short-circuit: if attempts k .. k+j-1 fail and the token reads
   cancelled before attempt k+j, inside the budget, the driver stops with
   'cancelled' without making that call.
   */
  lemma {:induction false} RepeatCancels<T>(fn: nat -> Attempt<T>, token: nat -> bool, n: nat, k: nat, j: nat)
    requires j < n
    requires AllFailed(fn, token, k, k + j)
    requires token(k + j)
    ensures RepeatFrom(fn, token, n, k) == Retried(Cancelled, k + j)
    decreases j
  {
    if j > 0 {
      assert !token(k) && fn(k).Failure?;
      RepeatCancels(fn, token, n - 1, k + 1, j - 1);
    }
  }

  /**
   A zero budget fails with 'max retries reached' and never calls `fn`, even
   when the token is already cancelled: the budget test comes first.
   */
  lemma ZeroBudget<T>(fn: nat -> Attempt<T>, token: nat -> bool)
    ensures Repeat(fn, 0, token) == Retried(MaxRetries, 0)
  {
  }

  /** A token cancelled before the first attempt, with budget left, stops the driver with no call. */
  lemma CancelledBeforeStart<T>(fn: nat -> Attempt<T>, n: nat, token: nat -> bool)
    requires n > 0 && token(0)
    ensures Repeat(fn, n, token) == Retried(Cancelled, 0)
  {
  }

  /**
   The default argument `token = { cancelled: false }` is a token that is
   never set: such a retry sequence never ends with 'cancelled', and it ends
   with 'max retries reached' only after n failed calls.
   */
  lemma DefaultTokenNeverCancels<T>(fn: nat -> Attempt<T>, n: nat)
    ensures var r := Repeat(fn, n, _ => false);
      !r.result.Cancelled? && (r.result.MaxRetries? ==> r.calls == n && AllFailed(fn, _ => false, 0, n))
  {
    RepeatSound(fn, _ => false, n, 0);
  }
}
