/** The retry loop around every store operation: up to `max_retries + 1`
    attempts, a sleep after each failed attempt but the last, and a delay that
    grows geometrically by `retry_backoff`. */
module Retry {
  import opened Wrappers

  /** `b` to the power `n`. */
  function Pow(b: real, n: nat): (r: real)
    ensures b >= 1.0 ==> r >= 1.0
  {
    if n == 0 then 1.0 else b * Pow(b, n - 1)
  }

  /** The delay before retry `i + 1`: `delay` multiplied by `backoff` once per earlier retry. */
  function Delay(delay: real, backoff: real, i: nat): (r: real)
    ensures delay >= 0.0 && backoff >= 1.0 ==> r >= 0.0
  {
    if i == 0 then delay else Delay(delay, backoff, i - 1) * backoff
  }

  /** Each sleep is the previous one multiplied by the back-off. */
  lemma DelayNext(delay: real, backoff: real, i: nat)
    ensures Delay(delay, backoff, i + 1) == Delay(delay, backoff, i) * backoff
  {
  }

  /** The schedule is geometric: the i-th sleep is `delay * backoff^i`. */
  lemma {:induction false} DelayIsGeometric(delay: real, backoff: real, i: nat)
    ensures Delay(delay, backoff, i) == delay * Pow(backoff, i)
  {
    if i > 0 {
      DelayIsGeometric(delay, backoff, i - 1);
      var p := Pow(backoff, i - 1);
      assert Delay(delay, backoff, i) == (delay * p) * backoff;
      assert (delay * p) * backoff == delay * (backoff * p);
    }
  }

  /** With a back-off of at least 1 the sleeps never get shorter. */
  lemma {:induction false} BackoffNeverShrinks(delay: real, backoff: real, i: nat, j: nat)
    requires delay >= 0.0 && backoff >= 1.0 && i <= j
    ensures Delay(delay, backoff, i) <= Delay(delay, backoff, j)
    decreases j - i
  {
    if i < j {
      BackoffNeverShrinks(delay, backoff, i, j - 1);
      var p := Delay(delay, backoff, j - 1);
      assert p * backoff >= p by {
        assert p * (backoff - 1.0) >= 0.0;
      }
    }
  }

  /** The outcome of attempts `from`, `from + 1`, ... up to `n - 1`: the first success, or
      `None` when every one of them fails. */
  function FirstSuccess<T>(attempt: nat -> Option<T>, from: nat, n: nat): Option<T>
    decreases n - from
  {
    if from >= n then None
    else if attempt(from).Some? then attempt(from)
    else FirstSuccess(attempt, from + 1, n)
  }

  /** A success is the result of some attempt in the range, and every earlier one failed. */
  lemma {:induction false} FirstSuccessIsFirst<T>(attempt: nat -> Option<T>, from: nat, n: nat)
    requires FirstSuccess(attempt, from, n).Some?
    ensures exists j :: from <= j < n && attempt(j) == FirstSuccess(attempt, from, n)
                        && forall k :: from <= k < j ==> attempt(k).None?
    decreases n - from
  {
    if attempt(from).None? {
      FirstSuccessIsFirst(attempt, from + 1, n);
      var j :| from + 1 <= j < n && attempt(j) == FirstSuccess(attempt, from + 1, n)
               && forall k :: from + 1 <= k < j ==> attempt(k).None?;
      assert forall k :: from <= k < j ==> attempt(k).None?;
    }
  }

  /** The loop gives up exactly when every attempt in the range fails. */
  lemma {:induction false} FirstSuccessNone<T>(attempt: nat -> Option<T>, from: nat, n: nat)
    ensures FirstSuccess(attempt, from, n).None? <==> forall j :: from <= j < n ==> attempt(j).None?
    decreases n - from
  {
    if from < n {
      FirstSuccessNone(attempt, from + 1, n);
    }
  }

  /** The number of attempts of `range(max_retries + 1)`: none at all once
      `max_retries` is negative. */
  function AttemptCount(maxRetries: int): (n: nat)
    ensures maxRetries >= 0 ==> n == maxRetries + 1
    ensures maxRetries < 0 ==> n == 0
  {
    if maxRetries >= 0 then maxRetries + 1 else 0
  }

  /** `_retry_operation`: call `attempt(0)`, `attempt(1)`, ... until one succeeds or
      the `max_retries + 1` attempts of the range have failed (a negative
      `max_retries` makes none); return the result, the sleeps taken in order and
      the number of calls made. */
  method RunRetries<T>(maxRetries: int, retryDelay: real, retryBackoff: real, attempt: nat -> Option<T>)
    returns (result: Option<T>, sleeps: seq<real>, calls: nat)
    ensures calls <= AttemptCount(maxRetries)
    ensures maxRetries >= 0 ==> 1 <= calls
    ensures result == FirstSuccess(attempt, 0, AttemptCount(maxRetries))
    ensures result.Some? ==> 1 <= calls && result == attempt(calls - 1)
                             && forall j :: 0 <= j < calls - 1 ==> attempt(j).None?
    ensures result.None? ==> calls == AttemptCount(maxRetries) && forall j :: 0 <= j < calls ==> attempt(j).None?
    ensures |sleeps| == if calls == 0 then 0 else calls - 1
    ensures forall i :: 0 <= i < |sleeps| ==> sleeps[i] == Delay(retryDelay, retryBackoff, i)
  {
    var delay := retryDelay;
    sleeps := [];
    var a: nat := 0;
    while a < maxRetries + 1
      invariant a <= AttemptCount(maxRetries)
      invariant forall j :: 0 <= j < a ==> attempt(j).None?
      invariant FirstSuccess(attempt, 0, AttemptCount(maxRetries)) == FirstSuccess(attempt, a, AttemptCount(maxRetries))
      invariant |sleeps| == if a <= maxRetries || a == 0 then a else a - 1
      invariant forall i :: 0 <= i < |sleeps| ==> sleeps[i] == Delay(retryDelay, retryBackoff, i)
      invariant delay == Delay(retryDelay, retryBackoff, |sleeps|)
    {
      var outcome := attempt(a);
      if outcome.Some? {
        return outcome, sleeps, a + 1;
      }
      if a < maxRetries {
        ghost var done, previous := |sleeps|, delay;
        DelayNext(retryDelay, retryBackoff, done);
        sleeps := sleeps + [delay];
        delay := delay * retryBackoff;
        assert |sleeps| == done + 1;
        assert previous == Delay(retryDelay, retryBackoff, done);
        assert delay == previous * retryBackoff;
        assert delay == Delay(retryDelay, retryBackoff, done + 1);
      }
      a := a + 1;
    }
    return None, sleeps, a;
  }
}
