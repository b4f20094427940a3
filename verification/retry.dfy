/**
 The retrying fetch wrapper of the chat page (`fetchWithRetry`): call a
 fallible operation; on a rate-limit failure (an error whose
 `response.status` is 429) with retry budget left, wait `delay`, then try
 again with one retry less and twice the delay; on any other failure, or
 with no budget left, re-throw the error unchanged.

 The asynchronous operation is replaced by a script: the i-th element is
 what the i-th call settles with. Waiting is recorded, not performed.
 */
module Retry {

  datatype Option<T> = None | Some(value: T)

  /** The `response` object an error may carry. `status` is None when the
      field is absent or is not a number. */
  datatype HttpResponse = HttpResponse(status: Option<int>)

  /** A thrown error value, kept whole so that "re-thrown unchanged" is
      plain equality. `response` is None when the error has no truthy
      `response` field. */
  datatype Failure = Failure(message: string, response: Option<HttpResponse>)

  /** How one call of the operation settles: resolved with a value or
      rejected with an error. */
  datatype Outcome<T> = Ok(value: T) | Err(failure: Failure)

  /** What one run of the wrapper produced: how it settled, how many times
      it called the operation, and the delays it waited, in order. */
  datatype Trace<T> = Trace(result: Outcome<T>, calls: nat, waits: seq<nat>)

  const RateLimitStatus: int := 429
  /** The wrapper's default retry budget and first delay (milliseconds). */
  const DefaultRetries: int := 3
  const DefaultDelay: nat := 1000

  /** `err.response && err.response.status === 429`. */
  predicate IsRateLimit(f: Failure) {
    f.response.Some? && f.response.value.status == Some(RateLimitStatus)
  }

  /** An outcome the wrapper would retry, budget permitting. */
  predicate IsRetryable<T>(o: Outcome<T>) {
    o.Err? && IsRateLimit(o.failure)
  }

  /** The most calls a run with budget `retries` can make: the first call
      plus one per unit of budget (`retries > 0` is the guard, so a
      negative budget behaves like zero). */
  function MaxCalls(retries: int): nat {
    if retries > 0 then retries + 1 else 1
  }

  function Pow2(n: nat): nat {
    if n == 0 then 1 else 2 * Pow2(n - 1)
  }

  /** The delays of `n` waits starting at `delay` and doubling each time. */
  function Backoff(delay: nat, n: nat): seq<nat> {
    seq(n, i requires 0 <= i < n => delay * Pow2(i))
  }

  function TotalWait(ws: seq<nat>): nat {
    if |ws| == 0 then 0 else TotalWait(ws[..|ws| - 1]) + ws[|ws| - 1]
  }

  /** The behaviour the wrapper promises, as a relation between a script
      and a trace: every call but the last was rate limited, the last
      call's outcome is returned unchanged, a rate-limited last call means
      the budget ran out, and the i-th wait is `delay * 2^i`. */
  ghost predicate IsRetryTrace<T>(script: seq<Outcome<T>>, retries: int, delay: nat, t: Trace<T>) {
    && 1 <= t.calls <= MaxCalls(retries)
    && t.calls <= |script|
    && t.result == script[t.calls - 1]
    && (forall i :: 0 <= i < t.calls - 1 ==> IsRetryable(script[i]))
    && (IsRetryable(t.result) ==> t.calls == MaxCalls(retries))
    && t.waits == Backoff(delay, t.calls - 1)
  }

  /** `fetchWithRetry(fn, retries, delay)` with `fn`'s successive outcomes
      given by `script`, which must cover every call the run may make. */
  function FetchWithRetry<T>(script: seq<Outcome<T>>, retries: int, delay: nat): (t: Trace<T>)
    requires |script| >= MaxCalls(retries)
    ensures IsRetryTrace(script, retries, delay, t)
    decreases |script|
  {
    match script[0]
    case Ok(_) => Trace(script[0], 1, [])
    case Err(f) =>
      if IsRateLimit(f) && retries > 0 then
        var rest := FetchWithRetry(script[1..], retries - 1, delay * 2);
        BackoffStep(delay, rest.calls - 1);
        Trace(rest.result, rest.calls + 1, [delay] + rest.waits)
      else
        Trace(script[0], 1, [])
  }

  /** Waiting `delay` and then the backoff that starts at twice the delay is
      the backoff that starts at `delay`, one wait longer. */
  lemma BackoffStep(delay: nat, n: nat)
    ensures [delay] + Backoff(delay * 2, n) == Backoff(delay, n + 1)
  {
    forall i | 0 <= i < n + 1
      ensures ([delay] + Backoff(delay * 2, n))[i] == Backoff(delay, n + 1)[i]
    {
      if i > 0 {
        assert Pow2(i) == 2 * Pow2(i - 1);
        assert delay * 2 * Pow2(i - 1) == delay * Pow2(i);
      }
    }
  }

  /** The promised behaviour pins the trace down: any trace that meets it
      is the one the wrapper produces. */
  lemma RetryTraceUnique<T>(script: seq<Outcome<T>>, retries: int, delay: nat, t: Trace<T>)
    requires |script| >= MaxCalls(retries)
    requires IsRetryTrace(script, retries, delay, t)
    ensures t == FetchWithRetry(script, retries, delay)
  {
  }

  /** The wrapper as the loop with a bounded counter that its recursion
      unrolls to. */
  method FetchLoop<T>(script: seq<Outcome<T>>, retries: int, delay: nat) returns (t: Trace<T>)
    requires |script| >= MaxCalls(retries)
    ensures IsRetryTrace(script, retries, delay, t)
    ensures t == FetchWithRetry(script, retries, delay)
  {
    var i := 0;
    var left := retries;
    var d := delay;
    var waits: seq<nat> := [];
    while IsRetryable(script[i]) && left > 0
      invariant 0 <= i < MaxCalls(retries)
      invariant left == retries - i
      invariant d == delay * Pow2(i)
      invariant waits == Backoff(delay, i)
      invariant forall k :: 0 <= k < i ==> IsRetryable(script[k])
      decreases left
    {
      waits := waits + [d];
      assert d * 2 == delay * Pow2(i + 1);
      d := d * 2;
      left := left - 1;
      i := i + 1;
    }
    t := Trace(script[i], i + 1, waits);
    RetryTraceUnique(script, retries, delay, t);
  }

  /** If the first call succeeds, its value is returned after one call and
      no wait, whatever the budget. */
  lemma FirstCallSucceeds<T>(script: seq<Outcome<T>>, retries: int, delay: nat, v: T)
    requires |script| >= MaxCalls(retries)
    requires script[0] == Ok(v)
    ensures FetchWithRetry(script, retries, delay) == Trace(Ok(v), 1, [])
  {
  }

  /** A failure that is not a rate limit is re-thrown unchanged after one
      call and no wait, whatever the budget. */
  lemma OtherFailurePropagates<T>(script: seq<Outcome<T>>, retries: int, delay: nat, f: Failure)
    requires |script| >= MaxCalls(retries)
    requires script[0] == Err(f) && !IsRateLimit(f)
    ensures FetchWithRetry(script, retries, delay) == Trace(Err(f), 1, [])
  {
  }

  /** When every call is rate limited, a budget of `r` makes exactly
      `r + 1` calls, re-throws the last call's error, and waits
      `d, 2d, ..., 2^(r-1) d` (nothing at all when `r` is 0). */
  lemma AlwaysRateLimited<T>(script: seq<Outcome<T>>, r: nat, delay: nat)
    requires |script| >= r + 1
    requires forall i :: 0 <= i <= r ==> IsRetryable(script[i])
    ensures var t := FetchWithRetry(script, r, delay);
      && t.calls == r + 1
      && t.result == script[r]
      && t.waits == Backoff(delay, r)
  {
  }

  /** `k <= r` rate-limited failures followed by a success return that
      success after `k + 1` calls, having waited `delay * 2^i` before the
      (i+1)-th retry, `delay * (2^k - 1)` in all. */
  lemma RateLimitedThenOk<T>(script: seq<Outcome<T>>, r: nat, delay: nat, k: nat, v: T)
    requires k <= r && |script| >= r + 1
    requires forall i :: 0 <= i < k ==> IsRetryable(script[i])
    requires script[k] == Ok(v)
    ensures var t := FetchWithRetry(script, r, delay);
      && t.result == Ok(v)
      && t.calls == k + 1
      && t.waits == Backoff(delay, k)
      && TotalWait(t.waits) == delay * (Pow2(k) - 1)
  {
    BackoffTotal(delay, k);
  }

  /** Waits double from one retry to the next. */
  lemma WaitsDouble<T>(script: seq<Outcome<T>>, retries: int, delay: nat, i: nat)
    requires |script| >= MaxCalls(retries)
    requires i + 1 < |FetchWithRetry(script, retries, delay).waits|
    ensures var ws := FetchWithRetry(script, retries, delay).waits;
      ws[i + 1] == 2 * ws[i]
  {
    assert Pow2(i + 1) == 2 * Pow2(i);
    assert delay * (2 * Pow2(i)) == 2 * (delay * Pow2(i));
  }

  /** Whatever the outcomes, a run that made `c` calls waited
      `delay * (2^(c-1) - 1)` in total. */
  lemma TotalWaitOfRun<T>(script: seq<Outcome<T>>, retries: int, delay: nat)
    requires |script| >= MaxCalls(retries)
    ensures var t := FetchWithRetry(script, retries, delay);
      TotalWait(t.waits) == delay * (Pow2(t.calls - 1) - 1)
  {
    BackoffTotal(delay, FetchWithRetry(script, retries, delay).calls - 1);
  }

  /** The `n` doubling waits that start at `delay` add up to
      `delay * (2^n - 1)`. */
  lemma {:induction false} BackoffTotal(delay: nat, n: nat)
    ensures TotalWait(Backoff(delay, n)) == delay * (Pow2(n) - 1)
  {
    if n > 0 {
      var ws := Backoff(delay, n);
      assert ws[..n - 1] == Backoff(delay, n - 1);
      BackoffTotal(delay, n - 1);
      assert Pow2(n) == 2 * Pow2(n - 1);
      calc {
        TotalWait(ws);
        TotalWait(Backoff(delay, n - 1)) + delay * Pow2(n - 1);
        delay * (Pow2(n - 1) - 1) + delay * Pow2(n - 1);
        delay * (2 * Pow2(n - 1) - 1);
      }
    }
  }

  /** Two rate-limited failures, then a success, with the default budget
      and delay: three calls, waits of 1000 and 2000. */
  lemma TwoRateLimitsThenOk(limited: Failure, v: string, spare: Outcome<string>)
    requires IsRateLimit(limited)
    ensures FetchWithRetry([Err(limited), Err(limited), Ok(v), spare], DefaultRetries, DefaultDelay)
            == Trace(Ok(v), 3, [1000, 2000])
  {
    var script := [Err(limited), Err(limited), Ok(v), spare];
    RateLimitedThenOk(script, 3, DefaultDelay, 2, v);
    assert Backoff(1000, 2) == [1000, 2000];
  }

  /** Rate limited on every call with the default budget: four calls, the
      last error re-thrown, waits of 1000, 2000 and 4000. */
  lemma DefaultBudgetExhausted(limited: Failure)
    requires IsRateLimit(limited)
    ensures var script: seq<Outcome<string>> := [Err(limited), Err(limited), Err(limited), Err(limited)];
      FetchWithRetry(script, DefaultRetries, DefaultDelay) == Trace(Err(limited), 4, [1000, 2000, 4000])
  {
    var script: seq<Outcome<string>> := [Err(limited), Err(limited), Err(limited), Err(limited)];
    AlwaysRateLimited(script, 3, DefaultDelay);
    assert Backoff(1000, 3) == [1000, 2000, 4000];
  }
}
