/**
 * The `async_retry` decorator of utils/retry.py: the wrapper's attempt loop.
 * The wrapped coroutine is an oracle giving, for each 1-based call number,
 * the value it returned or the exception it raised; `asyncio.sleep` is
 * recorded as the list of delays slept. Delays are integers (milliseconds)
 * and the backoff factor an integer.
 */
module Retry {
  import opened Common

  /**
   * An exception: the names of its class and of every class it inherits
   * from, and which raise it was.
   */
  datatype Exc = Exc(classes: set<string>, tag: nat)

  /** What one call of the wrapped coroutine did. */
  datatype Call<T> = Value(v: T) | Threw(e: Exc)

  /** What the wrapper does in the end: return, re-raise, or fall off its end. */
  datatype RetryResult<T> = Returns(v: T) | Reraises(e: Exc) | ReturnsNone

  function Pow(b: nat, k: nat): nat
  {
    if k == 0 then 1 else b * Pow(b, k - 1)
  }

  /** The first n sleeps: `delay`, then multiplied by `backoff` after each. */
  function Delays(delay: nat, backoff: nat, n: nat): (s: seq<nat>)
    ensures |s| == n && forall k :: 0 <= k < n ==> s[k] == delay * Pow(backoff, k)
  {
    seq(n, k requires 0 <= k < n => delay * Pow(backoff, k))
  }

  /**
   * Is this exception one the decorator's `exceptions` tuple catches? An
   * `except` clause is an isinstance test, so a subclass of a listed class
   * is caught too.
   */
  predicate Retriable(e: Exc, exceptions: set<string>)
  {
    e.classes * exceptions != {}
  }

  /**
   * The wrapper. It calls at most `maxAttempts` times; the first returned
   * value is returned at once; a caught exception is retried after a sleep,
   * except on the last attempt, where it is re-raised; an exception outside
   * `exceptions` propagates at once; with no attempt allowed the wrapper
   * returns None without calling.
   */
  method AsyncRetry<T>(maxAttempts: int, delay: nat, backoff: nat, exceptions: set<string>,
                       call: nat -> Call<T>)
    returns (r: RetryResult<T>, calls: nat, sleeps: seq<nat>)
    ensures maxAttempts <= 0 ==> r == ReturnsNone && calls == 0
    ensures maxAttempts >= 1 ==> 1 <= calls <= maxAttempts && !r.ReturnsNone?
    ensures forall k :: 1 <= k < calls ==> call(k).Threw? && Retriable(call(k).e, exceptions)
    ensures r.Returns? ==> call(calls) == Value(r.v)
    ensures r.Reraises? ==>
      call(calls) == Threw(r.e) && (calls == maxAttempts || !Retriable(r.e, exceptions))
    ensures sleeps == Delays(delay, backoff, if calls == 0 then 0 else calls - 1)
  {
    var currentDelay := delay;
    var attempt := 1;
    calls, sleeps := 0, [];
    while attempt <= maxAttempts
      invariant 1 <= attempt && (maxAttempts >= 1 ==> attempt <= maxAttempts)
      invariant calls == attempt - 1 && (maxAttempts < 1 ==> attempt == 1)
      invariant currentDelay == delay * Pow(backoff, attempt - 1)
      invariant sleeps == Delays(delay, backoff, attempt - 1)
      invariant forall k :: 1 <= k < attempt ==> call(k).Threw? && Retriable(call(k).e, exceptions)
      decreases maxAttempts - attempt
    {
      calls := attempt;
      match call(attempt)
      case Value(v) =>
        r := Returns(v);
        return;
      case Threw(e) =>
        if !Retriable(e, exceptions) || attempt == maxAttempts {
          r := Reraises(e);
          return;
        }
        sleeps := sleeps + [currentDelay];
        currentDelay := currentDelay * backoff;
        attempt := attempt + 1;
    }
    r := ReturnsNone;
  }

  /**
   * The delays grow geometrically: the first n of them add up to
   * delay * (backoff^n - 1) / (backoff - 1).
   */
  lemma {:induction false} DelaysTotal(delay: nat, backoff: nat, n: nat)
    ensures (backoff - 1) * Sum(Delays(delay, backoff, n)) == delay * (Pow(backoff, n) - 1)
  {
    if n > 0 {
      DelaysTotal(delay, backoff, n - 1);
      var s := Delays(delay, backoff, n);
      assert s[..n - 1] == Delays(delay, backoff, n - 1);
      GeometricStep(backoff - 1, Sum(Delays(delay, backoff, n - 1)), delay, Pow(backoff, n - 1));
    }
  }

  lemma GeometricStep(b1: int, prev: int, d: int, p: int)
    requires b1 * prev == d * (p - 1)
    ensures b1 * (prev + d * p) == d * ((b1 + 1) * p - 1)
  {
    calc {
      b1 * (prev + d * p);
      b1 * prev + b1 * (d * p);
      d * (p - 1) + b1 * (d * p);
      d * p - d + d * (b1 * p);
      d * (p + b1 * p) - d;
      d * ((b1 + 1) * p) - d;
    }
  }

  /** With the default doubling, the n sleeps add up to delay * (2^n - 1). */
  lemma DoublingTotal(delay: nat, n: nat)
    ensures Sum(Delays(delay, 2, n)) == delay * (Pow(2, n) - 1)
  {
    DelaysTotal(delay, 2, n);
  }
}
