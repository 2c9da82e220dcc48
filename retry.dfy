/**
 * `perform_rfid_operation`: call a fallible operation, and on an exception
 * sleep `base_delay * 2 ** (retries - 1)` and call it again, until it
 * returns or the failure count exceeds `max_retries`, when the last
 * exception is re-raised. The operation is an oracle: `op(k)` is what its
 * (k+1)-th call does. Delays are whole milliseconds.
 */
module Retry {
  import opened Types

  /** The source's defaults: `max_retries=3`, `base_delay=0.5` seconds. */
  const MaxRetries: nat := 3
  const BaseDelayMs: nat := 500

  function Pow2(n: nat): (r: nat)
    ensures r >= 1
  {
    if n == 0 then 1 else 2 * Pow2(n - 1)
  }

  /** The delays slept before retries 1..n: retry k waits `base * 2^(k-1)`. */
  function Backoff(base: nat, n: nat): (r: seq<nat>)
    ensures |r| == n
    ensures forall k :: 0 <= k < n ==> r[k] == base * Pow2(k)
  {
    if n == 0 then [] else Backoff(base, n - 1) + [base * Pow2(n - 1)]
  }

  /** Each delay doubles the one before it. */
  lemma BackoffDoubles(base: nat, n: nat, k: nat)
    requires 0 < k < n
    ensures Backoff(base, n)[k] == 2 * Backoff(base, n)[k - 1]
  {
  }

  /** With the defaults, the waits before calls 2, 3 and 4 are 0.5 s, 1 s and 2 s. */
  lemma DefaultSchedule()
    ensures Backoff(BaseDelayMs, MaxRetries) == [500, 1000, 2000]
  {
    var r := Backoff(BaseDelayMs, MaxRetries);
    assert Pow2(1) == 2 && Pow2(2) == 4;
    assert r[0] == 500 && r[1] == 1000 && r[2] == 2000;
  }

  /** What a retried call ends with, and how many calls of the operation it made. */
  datatype Run<+T, +E> = Run(result: Attempt<T, E>, calls: nat)

  /** The run from call k on, when the first k calls raised. */
  function RetriedFrom<T, E>(op: nat -> Attempt<T, E>, maxRetries: nat, k: nat): (r: Run<T, E>)
    requires k <= maxRetries
    ensures k < r.calls <= maxRetries + 1
    ensures r.result == op(r.calls - 1)
    ensures r.result.Raised? ==> r.calls == maxRetries + 1
    decreases maxRetries - k
  {
    if op(k).Returned? || k == maxRetries then Run(op(k), k + 1)
    else RetriedFrom(op, maxRetries, k + 1)
  }

  /** From call k on, every call before the last one raised, and a raised outcome means none from k on returned. */
  lemma {:induction false} RetriedFromRaised<T, E>(op: nat -> Attempt<T, E>, maxRetries: nat, k: nat)
    requires k <= maxRetries
    ensures forall i :: k <= i < RetriedFrom(op, maxRetries, k).calls - 1 ==> op(i).Raised?
    ensures RetriedFrom(op, maxRetries, k).result.Raised? <==> forall i :: k <= i <= maxRetries ==> op(i).Raised?
    decreases maxRetries - k
  {
    if !(op(k).Returned? || k == maxRetries) {
      RetriedFromRaised(op, maxRetries, k + 1);
    }
  }

  /**
   * The outcome of `perform_rfid_operation(op, max_retries=maxRetries)`:
   * at least one and at most `maxRetries + 1` calls, the outcome is the
   * last call's, and it is an exception only after `maxRetries + 1` calls.
   */
  function Retried<T, E>(op: nat -> Attempt<T, E>, maxRetries: nat): (r: Run<T, E>)
    ensures 1 <= r.calls <= maxRetries + 1
    ensures r.result == op(r.calls - 1)
    ensures r.result.Raised? ==> r.calls == maxRetries + 1
    ensures maxRetries == 0 ==> r.calls == 1
  {
    RetriedFrom(op, maxRetries, 0)
  }

  /**
   * The first call that returns ends the run: every call before the last
   * raised; the caller sees an exception exactly when all `maxRetries + 1`
   * calls raised.
   */
  lemma RetriedOutcome<T, E>(op: nat -> Attempt<T, E>, maxRetries: nat)
    ensures forall i :: 0 <= i < Retried(op, maxRetries).calls - 1 ==> op(i).Raised?
    ensures Retried(op, maxRetries).result.Raised? <==> forall i :: 0 <= i <= maxRetries ==> op(i).Raised?
  {
    RetriedFromRaised(op, maxRetries, 0);
  }

  /** The first call that returns is the last call made. */
  lemma FirstSuccessStops<T, E>(op: nat -> Attempt<T, E>, maxRetries: nat, k: nat)
    requires k <= maxRetries && op(k).Returned?
    requires forall i :: 0 <= i < k ==> op(i).Raised?
    ensures Retried(op, maxRetries) == Run(op(k), k + 1)
  {
    RetriedOutcome(op, maxRetries);
  }

  /**
   * The retry loop of `perform_rfid_operation`. It returns the outcome,
   * the number of calls and the delays it slept, in order.
   */
  method Perform<T, E>(op: nat -> Attempt<T, E>, maxRetries: nat, baseDelay: nat)
    returns (result: Attempt<T, E>, calls: nat, delays: seq<nat>)
    ensures Run(result, calls) == Retried(op, maxRetries)
    ensures 1 <= calls <= maxRetries + 1
    ensures delays == Backoff(baseDelay, calls - 1)
  {
    var retries: nat := 0;
    delays := [];
    while true
      invariant retries <= maxRetries
      invariant Retried(op, maxRetries) == RetriedFrom(op, maxRetries, retries)
      invariant delays == Backoff(baseDelay, retries)
      decreases maxRetries - retries
    {
      var outcome := op(retries);
      if outcome.Returned? {
        return outcome, retries + 1, delays;
      }
      retries := retries + 1;
      if retries > maxRetries {
        return outcome, retries, delays;
      }
      var delay := baseDelay * Pow2(retries - 1);
      delays := delays + [delay];
    }
  }
}
