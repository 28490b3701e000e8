/**
 * The retry loop of `useRetry` (src/hooks/useRetry.ts). The callee's
 * behaviour is a parameter: `outcome(n)` is what the n-th call (from 0)
 * resolves or rejects with. The timer wait and the `onRetry` callback are
 * recorded instead of performed.
 */
module UseRetry {
  import opened Common

  /** A rejected call's error, with the fields the retry rule reads. */
  datatype Failure = Failure(code: Option<string>, message: Option<string>, status: Option<int>)

  datatype Outcome<T> = Resolved(value: T) | Rejected(error: Failure)

  const DefaultMaxRetries := 3
  const DefaultRetryDelay := 1000

  /** The error thrown when no call was made at all. */
  const GiveUp := Failure(None, Some("재시도 실패"), None)

  /** `RetryOptions`, each field possibly absent. */
  datatype RetryOptions = RetryOptions(maxRetries: Option<int>, retryDelay: Option<int>, onRetry: bool)

  function MaxRetriesOf(o: RetryOptions): int
  {
    if o.maxRetries.Some? then o.maxRetries.value else DefaultMaxRetries
  }

  function RetryDelayOf(o: RetryOptions): int
  {
    if o.retryDelay.Some? then o.retryDelay.value else DefaultRetryDelay
  }

  /** Only network errors and server errors are worth another attempt. */
  predicate IsNetworkError(e: Failure)
  {
    e.code == Some("ERR_NETWORK")
    || (e.message.Some? && Contains(e.message.value, "Network Error"))
    || (e.status.Some? && e.status.value >= 500)
  }

  /** What a run from `attempt` on does: its result, the calls made and the retries announced. */
  datatype Trace<T> = Trace(result: Outcome<T>, calls: nat, retries: seq<nat>)

  function RunFrom<T>(outcome: nat -> Outcome<T>, maxRetries: int, attempt: nat): Trace<T>
    requires attempt <= maxRetries
    decreases maxRetries - attempt
  {
    match outcome(attempt)
    case Resolved(v) => Trace(Resolved(v), 1, [])
    case Rejected(e) =>
      if !IsNetworkError(e) || attempt == maxRetries then Trace(Rejected(e), 1, [])
      else
        var t := RunFrom(outcome, maxRetries, attempt + 1);
        Trace(t.result, t.calls + 1, [attempt + 1] + t.retries)
  }

  /** `executeWithRetry` as a whole. */
  function Run<T>(outcome: nat -> Outcome<T>, maxRetries: int): Trace<T>
  {
    if maxRetries < 0 then Trace(Rejected(GiveUp), 0, []) else RunFrom(outcome, maxRetries, 0)
  }

  /** What one run makes observable, in order. */
  datatype Effect =
    | Call(attempt: int)            // `fn()` invoked
    | Announce(retry: nat)          // `onRetry(retry)`
    | Sleep(ms: int)                // `setTimeout(..., ms)` awaited
    | SetCount(key: string, n: int) // `retryCountRef.current[key] = n`

  /** The effects of the failed call before retry `k` and of preparing that retry. */
  function RetryStep(key: string, k: nat, options: RetryOptions): seq<Effect>
  {
    [Call(k - 1)] + (if options.onRetry then [Announce(k)] else [])
      + [Sleep(RetryDelayOf(options) * k), SetCount(key, k)]
  }

  /** The effects of the retries `ks` in turn. */
  function RetrySteps(key: string, ks: seq<nat>, options: RetryOptions): seq<Effect>
  {
    if ks == [] then [] else RetrySteps(key, ks[..|ks| - 1], options) + RetryStep(key, ks[|ks| - 1], options)
  }

  /** All effects of a run: its retries, then its last call (if any) and the reset of the count. */
  function RunEffects<T>(key: string, t: Trace<T>, options: RetryOptions): seq<Effect>
  {
    RetrySteps(key, t.retries, options)
      + (if t.calls == 0 then [] else [Call(t.calls - 1)]) + [SetCount(key, 0)]
  }

  /** A run that ends at call `attempt` after the retries `done`. */
  lemma {:induction false} FinishEffects<T>(key: string, t: Trace<T>, options: RetryOptions, attempt: nat, done: seq<nat>)
    requires t.calls == attempt + 1 && t.retries == done
    ensures RunEffects(key, t, options) == RetrySteps(key, done, options) + [Call(attempt), SetCount(key, 0)]
  {
  }

  lemma {:induction false} RetryStepsSnoc(key: string, ks: seq<nat>, k: nat, options: RetryOptions)
    ensures RetrySteps(key, ks + [k], options) == RetrySteps(key, ks, options) + RetryStep(key, k, options)
  {
    assert (ks + [k])[..|ks|] == ks;
  }

  /** The numbers lo..hi-1 in order. */
  function Upto(lo: nat, hi: nat): (s: seq<nat>)
    requires lo <= hi
    ensures |s| == hi - lo && forall i :: 0 <= i < |s| ==> s[i] == lo + i
    decreases hi - lo
  {
    if lo == hi then [] else [lo] + Upto(lo + 1, hi)
  }

  /**
   * From `attempt` on, the callee is called at most once per remaining
   * attempt, and the retries announced are attempt+1, attempt+2, ..., one
   * fewer than the calls.
   */
  lemma {:induction false} RunFromBounds<T>(outcome: nat -> Outcome<T>, maxRetries: int, attempt: nat)
    requires attempt <= maxRetries
    ensures var t := RunFrom(outcome, maxRetries, attempt);
      1 <= t.calls <= maxRetries - attempt + 1
      && t.retries == Upto(attempt + 1, attempt + t.calls)
    decreases maxRetries - attempt
  {
    if outcome(attempt).Rejected? && IsNetworkError(outcome(attempt).error) && attempt != maxRetries {
      RunFromBounds(outcome, maxRetries, attempt + 1);
    }
  }

  /** The calls never exceed `maxRetries + 1`; with a negative bound there are none. */
  lemma {:induction false} RunBounds<T>(outcome: nat -> Outcome<T>, maxRetries: int)
    ensures maxRetries < 0 ==> Run(outcome, maxRetries) == Trace(Rejected(GiveUp), 0, [])
    ensures maxRetries >= 0 ==> 1 <= Run(outcome, maxRetries).calls <= maxRetries + 1
    ensures maxRetries >= 0 ==> Run(outcome, maxRetries).retries == Upto(1, Run(outcome, maxRetries).calls)
  {
    if maxRetries >= 0 {
      RunFromBounds(outcome, maxRetries, 0);
    }
  }

  /**
   * The run ends with the outcome of its last call: it succeeds exactly when
   * that call resolved, and every earlier call was a retryable failure.
   */
  lemma {:induction false} RunFromLast<T>(outcome: nat -> Outcome<T>, maxRetries: int, attempt: nat)
    requires attempt <= maxRetries
    ensures var t := RunFrom(outcome, maxRetries, attempt);
      t.result == outcome(attempt + t.calls - 1)
      && forall j :: attempt <= j < attempt + t.calls - 1 ==> outcome(j).Rejected? && IsNetworkError(outcome(j).error)
    decreases maxRetries - attempt
  {
    if outcome(attempt).Rejected? && IsNetworkError(outcome(attempt).error) && attempt != maxRetries {
      RunFromLast(outcome, maxRetries, attempt + 1);
    }
  }

  /**
   * The run stops at the first success or non-retryable error; it reaches
   * the last attempt only through retryable failures.
   */
  lemma {:induction false} RunFromStops<T>(outcome: nat -> Outcome<T>, maxRetries: int, attempt: nat)
    requires attempt <= maxRetries
    ensures var t := RunFrom(outcome, maxRetries, attempt);
      var last := outcome(attempt + t.calls - 1);
      last.Resolved? || !IsNetworkError(last.error) || attempt + t.calls - 1 == maxRetries
    decreases maxRetries - attempt
  {
    if outcome(attempt).Rejected? && IsNetworkError(outcome(attempt).error) && attempt != maxRetries {
      RunFromStops(outcome, maxRetries, attempt + 1);
    }
  }

  /** A first call that resolves is returned at once. */
  lemma {:induction false} FirstSuccessReturned<T>(outcome: nat -> Outcome<T>, maxRetries: int)
    requires maxRetries >= 0 && outcome(0).Resolved?
    ensures Run(outcome, maxRetries) == Trace(outcome(0), 1, [])
  {
  }

  /** The whole run is the `attempt` calls already made, announcing `done`, then the run from `attempt`. */
  ghost predicate RunFromSplit<T>(whole: Trace<T>, outcome: nat -> Outcome<T>, maxRetries: int, attempt: nat, done: seq<nat>)
    requires attempt <= maxRetries
  {
    var rest := RunFrom(outcome, maxRetries, attempt);
    whole.result == rest.result && whole.calls == attempt + rest.calls && whole.retries == done + rest.retries
  }

  lemma {:induction false} RunFromAdvance<T>(whole: Trace<T>, outcome: nat -> Outcome<T>, maxRetries: int, attempt: nat, done: seq<nat>)
    requires attempt < maxRetries && RunFromSplit(whole, outcome, maxRetries, attempt, done)
    requires outcome(attempt).Rejected? && IsNetworkError(outcome(attempt).error)
    ensures RunFromSplit(whole, outcome, maxRetries, attempt + 1, done + [attempt + 1])
  {
    var rest := RunFrom(outcome, maxRetries, attempt + 1);
    assert RunFrom(outcome, maxRetries, attempt).retries == [attempt + 1] + rest.retries;
    assert done + ([attempt + 1] + rest.retries) == (done + [attempt + 1]) + rest.retries;
  }

  /** A call that stops the run from `attempt` completes the whole run. */
  lemma {:induction false} RunFromFinish<T>(whole: Trace<T>, outcome: nat -> Outcome<T>, maxRetries: int, attempt: nat, done: seq<nat>)
    requires attempt <= maxRetries && RunFromSplit(whole, outcome, maxRetries, attempt, done)
    requires outcome(attempt).Resolved? || !IsNetworkError(outcome(attempt).error) || attempt == maxRetries
    ensures whole == Trace(outcome(attempt), attempt + 1, done)
  {
    assert done + [] == done;
  }

  /** A success, a non-retryable error or the last attempt ends the run with that one call. */
  lemma {:induction false} RunFromStop<T>(outcome: nat -> Outcome<T>, maxRetries: int, attempt: nat)
    requires attempt <= maxRetries
    requires outcome(attempt).Resolved? || !IsNetworkError(outcome(attempt).error) || attempt == maxRetries
    ensures RunFrom(outcome, maxRetries, attempt) == Trace(outcome(attempt), 1, [])
  {
  }

  /** The attempts of the `Call` effects, in order. */
  function CallsOf(es: seq<Effect>): seq<int>
  {
    if es == [] then [] else (if es[0].Call? then [es[0].attempt] else []) + CallsOf(es[1..])
  }

  lemma {:induction false} CallsOfAppend(a: seq<Effect>, b: seq<Effect>)
    ensures CallsOf(a + b) == CallsOf(a) + CallsOf(b)
  {
    if a == [] {
      assert a + b == b;
    } else {
      var ab := a + b;
      assert ab[0] == a[0] && ab[1..] == a[1..] + b;
      CallsOfAppend(a[1..], b);
    }
  }

  lemma {:induction false} NoCalls(es: seq<Effect>)
    requires forall i :: 0 <= i < |es| ==> !es[i].Call?
    ensures CallsOf(es) == []
  {
    if es != [] {
      NoCalls(es[1..]);
    }
  }

  lemma {:induction false} UptoSnoc(lo: nat, hi: nat)
    requires lo <= hi
    ensures Upto(lo, hi + 1) == Upto(lo, hi) + [hi]
  {
  }

  /** Retries 1..n call the callee at attempts 0..n-1. */
  lemma {:induction false} RetryStepsCalls(key: string, n: nat, options: RetryOptions)
    ensures CallsOf(RetrySteps(key, Upto(1, n + 1), options)) == Upto(0, n)
  {
    if n > 0 {
      RetryStepsCalls(key, n - 1, options);
      UptoSnoc(1, n);
      UptoSnoc(0, n - 1);
      RetryStepsSnoc(key, Upto(1, n), n, options);
      CallsOfAppend(RetrySteps(key, Upto(1, n), options), RetryStep(key, n, options));
      RetryStepCalls(key, n, options);
    }
  }

  /** Retry `k` calls the callee once, at attempt k-1. */
  lemma {:induction false} RetryStepCalls(key: string, k: nat, options: RetryOptions)
    requires k >= 1
    ensures CallsOf(RetryStep(key, k, options)) == [k - 1]
  {
    var step := RetryStep(key, k, options);
    assert step == [Call(k - 1)] + step[1..];
    CallsOfAppend([Call(k - 1)], step[1..]);
    NoCalls(step[1..]);
  }

  /**
   * A run's effects call the callee at attempts 0, 1, ... in turn, once per
   * call of the run, and end by resetting the count.
   */
  lemma {:induction false} RunEffectsCalls<T>(key: string, outcome: nat -> Outcome<T>, options: RetryOptions)
    ensures var t := Run(outcome, MaxRetriesOf(options));
      CallsOf(RunEffects(key, t, options)) == Upto(0, t.calls)
      && RunEffects(key, t, options)[|RunEffects(key, t, options)| - 1] == SetCount(key, 0)
  {
    var t := Run(outcome, MaxRetriesOf(options));
    RunBounds(outcome, MaxRetriesOf(options));
    var tail := (if t.calls == 0 then [] else [Call(t.calls - 1)]) + [SetCount(key, 0)];
    CallsOfAppend(RetrySteps(key, t.retries, options), tail);
    assert RunEffects(key, t, options) == RetrySteps(key, t.retries, options) + tail;
    if t.calls > 0 {
      assert MaxRetriesOf(options) >= 0 && t.retries == Upto(1, t.calls - 1 + 1);
      RetryStepsCalls(key, t.calls - 1, options);
      UptoSnoc(0, t.calls - 1);
      CallsOfAppend([Call(t.calls - 1)], [SetCount(key, 0)]);
      NoCalls([SetCount(key, 0)]);
      assert CallsOf(tail) == [t.calls - 1];
    } else {
      NoCalls(tail);
    }
  }

  /** A second write to the same key overwrites the first. */
  lemma {:induction false} WriteTwice(m: map<string, int>, k: string, a: int, b: int)
    ensures m[k := a][k := b] == m[k := b]
  {
  }

  /** The hook's `retryCountRef`. */
  class Retrier {
    /** `retryCountRef.current` */
    var retryCount: map<string, int>

    constructor()
      ensures retryCount == map[]
    {
      retryCount := map[];
    }

    /**
     * `executeWithRetry`: besides the result, the effects of the run in
     * the order they happen.
     */
    method ExecuteWithRetry<T>(key: string, outcome: nat -> Outcome<T>, options: RetryOptions)
      returns (r: Outcome<T>, effects: seq<Effect>)
      modifies this
      ensures r == Run(outcome, MaxRetriesOf(options)).result
      ensures effects == RunEffects(key, Run(outcome, MaxRetriesOf(options)), options)
      ensures retryCount == old(retryCount)[key := 0]
    {
      var maxRetries := MaxRetriesOf(options);
      var retryDelay := RetryDelayOf(options);
      effects := [];
      var attempt: nat := 0;
      ghost var done: seq<nat> := [];
      ghost var whole := Run(outcome, maxRetries);
      while attempt <= maxRetries
        invariant attempt == 0 || attempt <= maxRetries
        invariant |done| == attempt
        invariant attempt <= maxRetries ==> RunFromSplit(whole, outcome, maxRetries, attempt, done)
        invariant effects == RetrySteps(key, done, options)
        invariant attempt > 0 ==> retryCount == old(retryCount)[key := attempt]
        invariant attempt == 0 ==> retryCount == old(retryCount)
        decreases maxRetries - attempt
      {
        var o := outcome(attempt);
        if o.Resolved? || !IsNetworkError(o.error) || attempt == maxRetries {
          RunFromFinish(whole, outcome, maxRetries, attempt, done);
          if attempt > 0 {
            WriteTwice(old(retryCount), key, attempt, 0);
          }
          retryCount := retryCount[key := 0];
          effects := effects + [Call(attempt), SetCount(key, 0)];
          FinishEffects(key, whole, options, attempt, done);
          return o, effects;
        }
        if attempt > 0 {
          WriteTwice(old(retryCount), key, attempt, attempt + 1);
        }
        retryCount := retryCount[key := attempt + 1];
        var step := [Call(attempt)] + (if options.onRetry then [Announce(attempt + 1)] else [])
          + [Sleep(retryDelay * (attempt + 1)), SetCount(key, attempt + 1)];
        assert step == RetryStep(key, attempt + 1, options);
        effects := effects + step;
        RetryStepsSnoc(key, done, attempt + 1, options);
        RunFromAdvance(whole, outcome, maxRetries, attempt, done);
        done := done + [attempt + 1];
        attempt := attempt + 1;
      }
      retryCount := retryCount[key := 0];
      effects := effects + [SetCount(key, 0)];
      return Rejected(GiveUp), effects;
    }
  }
}
