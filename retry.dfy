/**
 * The retry envelope of app/gemini/retry.py (`retry_async`); `GeminiService._retry`
 * in app/gemini/service.py is the same loop. The wrapped call is given by what each
 * invocation does: `call(k)` is the result of the k-th invocation (1-based).
 */
module Retry {
  import opened Wrappers
  import Text
  import Numeric

  const DefaultRetries: int := 3
  const DefaultBaseDelay: real := 0.5

  /** The transient-error test: plain substring checks on `str(e)` and its lower-case form. */
  predicate IsTransient(message: string) {
    Text.Contains(message, "429")
    || Text.Contains(Text.Lower(message), "rate")
    || Text.Contains(Text.Lower(message), "timeout")
    || Text.Contains(Text.Lower(message), "unavailable")
    || Text.Contains(message, "500")
  }

  /**
   * The sleep after failed attempt `attempt`, computed as the source does:
   * `delay + jitter * (0.5 - 0.5)`. The jitter term contributes nothing.
   */
  function SleepTime(baseDelay: real, attempt: nat): (r: real)
    requires attempt >= 1
    ensures r == baseDelay * Numeric.Pow2(attempt - 1) as real
  {
    var delay := baseDelay * Numeric.Pow2(attempt - 1) as real;
    var jitter := delay * 0.1;
    delay + jitter * (0.5 - 0.5)
  }

  /** How the loop ends: a returned value, a re-raised error, or falling off the loop (`None`). */
  datatype Outcome<T> = Returned(value: T) | Raised(error: Error) | FellThrough

  /** One run of the loop: its outcome, how often it invoked the call, and the sleeps it took. */
  datatype Run<T> = Run(outcome: Outcome<T>, invocations: nat, sleeps: seq<real>)

  /** What the loop does from attempt `attempt` on. */
  function From<T>(call: nat -> Result<T>, retries: int, baseDelay: real, attempt: nat): Run<T>
    requires attempt >= 1
    decreases if attempt <= retries then retries - attempt + 1 else 0
  {
    if attempt > retries then Run(FellThrough, 0, [])
    else match call(attempt)
      case Ok(v) => Run(Returned(v), 1, [])
      case Err(e) =>
        if !IsTransient(e.message) || attempt == retries then Run(Raised(e), 1, [])
        else
          var rest := From(call, retries, baseDelay, attempt + 1);
          Run(rest.outcome, rest.invocations + 1, [SleepTime(baseDelay, attempt)] + rest.sleeps)
  }

  /** An attempt that ends the loop: a success, a permanent error, or the last allowed try. */
  predicate Decisive<T>(call: nat -> Result<T>, retries: int, j: nat) {
    call(j).Ok? || !IsTransient(call(j).error.message) || j == retries
  }

  /** The sleeps of attempts `first .. first + n - 1`: exponential backoff from `baseDelay`. */
  function Backoffs(baseDelay: real, first: nat, n: nat): (r: seq<real>)
    requires first >= 1
    ensures |r| == n
    ensures forall i :: 0 <= i < n ==> r[i] == baseDelay * Numeric.Pow2(first - 1 + i) as real
    decreases n
  {
    if n == 0 then [] else [SleepTime(baseDelay, first)] + Backoffs(baseDelay, first + 1, n - 1)
  }

  /**
   * `retry_async(func, retries=retries, base_delay=baseDelay)`: its outcome, the number of
   * invocations of `func` and the sleep durations, in order.
   */
  method RetryAsync<T>(call: nat -> Result<T>, retries: int, baseDelay: real)
    returns (outcome: Outcome<T>, invocations: nat, sleeps: seq<real>)
    ensures Run(outcome, invocations, sleeps) == From(call, retries, baseDelay, 1)
  {
    ghost var whole := From(call, retries, baseDelay, 1);
    invocations, sleeps := 0, [];
    var attempt := 1;
    while attempt <= retries
      invariant 1 <= attempt && invocations == attempt - 1
      invariant whole.outcome == From(call, retries, baseDelay, attempt).outcome
      invariant whole.invocations == invocations + From(call, retries, baseDelay, attempt).invocations
      invariant whole.sleeps == sleeps + From(call, retries, baseDelay, attempt).sleeps
      decreases retries - attempt
    {
      var result := call(attempt);
      invocations := invocations + 1;
      match result
      case Ok(v) =>
        return Returned(v), invocations, sleeps;
      case Err(e) =>
        var transient := IsTransient(e.message);
        if !transient || attempt == retries {
          return Raised(e), invocations, sleeps;
        }
        var delay := baseDelay * Numeric.Pow2(attempt - 1) as real;
        var jitter := delay * 0.1;
        var sleepTime := delay + jitter * (0.5 - 0.5);
        ghost var rest := From(call, retries, baseDelay, attempt + 1);
        assert sleeps + From(call, retries, baseDelay, attempt).sleeps == (sleeps + [sleepTime]) + rest.sleeps;
        sleeps := sleeps + [sleepTime];
      attempt := attempt + 1;
    }
    outcome := FellThrough;
  }

  /**
   * The loop stops at the first decisive attempt `n`, having invoked the call exactly `n`
   * times and slept `n - 1` times with exponential backoff; it returns or re-raises
   * what attempt `n` produced. With no positive budget it never invokes the call.
   */
  lemma {:induction false} Characterization<T>(call: nat -> Result<T>, retries: int, baseDelay: real, attempt: nat)
    requires attempt >= 1
    ensures var run := From(call, retries, baseDelay, attempt);
      && (attempt > retries <==> run.outcome == FellThrough)
      && (attempt > retries ==> run.invocations == 0 && run.sleeps == [])
      && (attempt <= retries ==>
            var n := attempt - 1 + run.invocations;
            && attempt <= n <= retries
            && Decisive(call, retries, n)
            && (forall j :: attempt <= j < n ==> !Decisive(call, retries, j))
            && run.outcome == (if call(n).Ok? then Returned(call(n).value) else Raised(call(n).error))
            && run.sleeps == Backoffs(baseDelay, attempt, run.invocations - 1))
    decreases if attempt <= retries then retries - attempt + 1 else 0
  {
    if attempt <= retries && !Decisive(call, retries, attempt) {
      Characterization(call, retries, baseDelay, attempt + 1);
      var rest := From(call, retries, baseDelay, attempt + 1);
      assert rest.invocations >= 1;
      assert Backoffs(baseDelay, attempt, rest.invocations)
          == [SleepTime(baseDelay, attempt)] + Backoffs(baseDelay, attempt + 1, rest.invocations - 1);
    }
  }

  /** The call is invoked at most `retries` times, and never when `retries <= 0`. */
  lemma InvocationBound<T>(call: nat -> Result<T>, retries: int, baseDelay: real)
    ensures var run := From(call, retries, baseDelay, 1);
      && (retries <= 0 ==> run == Run(FellThrough, 0, []))
      && (retries >= 1 ==> 1 <= run.invocations <= retries && run.outcome != FellThrough)
      && |run.sleeps| == (if run.invocations == 0 then 0 else run.invocations - 1)
  {
    Characterization(call, retries, baseDelay, 1);
  }

  /** If attempts `1 .. k-1` fail transiently and attempt `k <= retries` succeeds, its value is returned after `k` invocations. */
  lemma FirstSuccess<T>(call: nat -> Result<T>, retries: int, baseDelay: real, k: nat)
    requires 1 <= k <= retries && call(k).Ok?
    requires forall j :: 1 <= j < k ==> call(j).Err? && IsTransient(call(j).error.message) && j != retries
    ensures From(call, retries, baseDelay, 1) == Run(Returned(call(k).value), k, Backoffs(baseDelay, 1, k - 1))
  {
    Characterization(call, retries, baseDelay, 1);
    assert Decisive(call, retries, k);
  }

  /** A permanent error is re-raised at once: one invocation and no sleep. */
  lemma PermanentErrorRaisedAtOnce<T>(call: nat -> Result<T>, retries: int, baseDelay: real)
    requires retries >= 1 && call(1).Err? && !IsTransient(call(1).error.message)
    ensures From(call, retries, baseDelay, 1) == Run(Raised(call(1).error), 1, [])
  {
  }

  /** Transient errors on every attempt exhaust the budget: the last error is re-raised after `retries` invocations. */
  lemma BudgetExhausted<T>(call: nat -> Result<T>, retries: int, baseDelay: real)
    requires retries >= 1
    requires forall j :: 1 <= j <= retries ==> call(j).Err? && IsTransient(call(j).error.message)
    ensures From(call, retries, baseDelay, 1) == Run(Raised(call(retries).error), retries, Backoffs(baseDelay, 1, retries - 1))
  {
    Characterization(call, retries, baseDelay, 1);
  }
}
