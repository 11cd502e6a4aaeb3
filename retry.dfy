/** The restart policy of a service: `retry.With` runs a target under a
    backoff strategy, classifying each attempt's outcome as success,
    permanent failure or retryable failure, and stopping on the first
    success, on a critical error, when the retry budget is spent or when
    the context is done. */
module Retry {
  import opened Errors
  import opened Contexts

  type Uint64 = x: int | 0 <= x < 0x1_0000_0000_0000_0000

  /** The backoff strategy as an oracle. After a reset it answers the first
      `allowed` calls of NextBackOff with an interval to wait and the next
      one with Stop (its elapsed-time limit). Intervals and sleeping are
      not modelled. */
  datatype Strategy = Strategy(allowed: nat)

  /** `retry.Opts`: the strategy (nil when not configured), the critical
      error (nil when not configured) and the retry cap (0 for no cap). */
  datatype Opts = Opts(backoff: Option<Strategy>, criticalError: Option<Error>, maxRetry: Uint64)

  /** The target as an oracle: what its k-th call (from 0) returns. */
  type Target = nat -> Option<Error>

  /** What the per-attempt closure makes of one outcome. */
  datatype Verdict = Success | Permanent(err: Error) | Retryable(err: Error)

  /** What the loop returns and how many times it called the target. */
  datatype Outcome = Outcome(err: Option<Error>, attempts: nat)

  /** The answer of the strategy chain to NextBackOff. */
  datatype Next = Wait | Stop

  /** The per-attempt closure: nil is success; an error that matches the
      critical error through its wrap chain is permanent; every other
      error, and every error when no critical error is configured, is
      retryable. The error itself is passed on unchanged. */
  function Classify(outcome: Option<Error>, critical: Option<Error>): (v: Verdict)
    ensures v.Success? <==> outcome.None?
    ensures v.Permanent? <==> outcome.Some? && critical.Some? && Is(outcome.value, critical.value)
    ensures critical.None? && outcome.Some? ==> v == Retryable(outcome.value)
    ensures !v.Success? ==> outcome == Some(v.err)
  {
    match outcome
    case None => Success
    case Some(e) =>
      if critical.None? then Retryable(e)
      else if Is(e, critical.value) then Permanent(e)
      else Retryable(e)
  }

  /** The answer of NextBackOff at the decision after attempt k, through
      the cap (`backoff.WithMaxRetries`, only when the cap is positive),
      then the context (`backoff.WithContext`), then the strategy itself.
      Each earlier decision that did not stop passed one call through each
      layer, so each layer has seen k calls before this one. */
  function NextBackOff(ctx: Context, opts: Opts, k: nat): (next: Next)
    requires opts.backoff.Some?
    ensures next == Wait <==>
      (opts.maxRetry == 0 || k < opts.maxRetry) && !DoneAt(ctx, 2 * k) && k < opts.backoff.value.allowed
  {
    if opts.maxRetry > 0 && opts.maxRetry <= k then Stop
    else if DoneAt(ctx, 2 * k) then Stop
    else if k < opts.backoff.value.allowed then Wait
    else Stop
  }

  /** The loop from attempt k on. On Stop the context's error wins over the
      attempt's error; a sleep cut short by the context returns the
      context's error. */
  function RetryFrom(ctx: Context, target: Target, opts: Opts, k: nat): (r: Outcome)
    requires opts.backoff.Some?
    decreases opts.backoff.value.allowed - k
    // the target runs at least once more
    ensures k < r.attempts
    // every attempt before the last one failed with a retryable error, the
    // chain said to wait after it, and the sleep ran to its end
    ensures forall j | k <= j < r.attempts - 1 ::
      Classify(target(j), opts.criticalError).Retryable? &&
      NextBackOff(ctx, opts, j) == Wait && !DoneAt(ctx, 2 * j + 1)
    // a last attempt that failed with a retryable error ended the loop
    // because the chain said Stop, and then `ctx.Err()` wins over the
    // attempt's error, or because the context ended the sleep, and then its
    // error is returned
    ensures var last := r.attempts - 1;
      Classify(target(last), opts.criticalError).Retryable? ==>
        if NextBackOff(ctx, opts, last) == Stop then
          r.err == (if ErrAt(ctx, 2 * last).Some? then ErrAt(ctx, 2 * last) else target(last))
        else
          DoneAt(ctx, 2 * last + 1) && r.err == ErrAt(ctx, 2 * last + 1)
    // success is exactly a last attempt that returned nil
    ensures r.err.None? <==> target(r.attempts - 1).None?
    // a critical error ends the loop and is returned as it is
    ensures Classify(target(r.attempts - 1), opts.criticalError).Permanent? ==> r.err == target(r.attempts - 1)
    // the result is the last attempt's error or, once the context is done, the context's error
    ensures r.err == target(r.attempts - 1) || (r.err == Some(ctx.cause) && DoneAt(ctx, 2 * r.attempts - 1))
    // a positive cap allows at most MaxRetry + 1 attempts
    ensures opts.maxRetry > 0 && k <= opts.maxRetry ==> r.attempts <= opts.maxRetry + 1
    // the strategy's own budget bounds the attempts too
    ensures k <= opts.backoff.value.allowed ==> r.attempts <= opts.backoff.value.allowed + 1
  {
    match Classify(target(k), opts.criticalError)
    case Success => Outcome(None, k + 1)
    case Permanent(e) => Outcome(Some(e), k + 1)
    case Retryable(e) =>
      if NextBackOff(ctx, opts, k) == Stop then
        Outcome(if ErrAt(ctx, 2 * k).Some? then ErrAt(ctx, 2 * k) else Some(e), k + 1)
      else if ErrAt(ctx, 2 * k + 1).Some? then
        Outcome(ErrAt(ctx, 2 * k + 1), k + 1)
      else
        RetryFrom(ctx, target, opts, k + 1)
  }

  /** The whole run of `retry.With`: the strategy is reset, so it starts
      from its first decision, and the loop starts from attempt 0. */
  function RetryOutcome(ctx: Context, target: Target, opts: Opts): (r: Outcome)
    requires opts.backoff.Some?
    ensures 1 <= r.attempts
    ensures opts.maxRetry > 0 ==> r.attempts <= opts.maxRetry + 1
  {
    RetryFrom(ctx, target, opts, 0)
  }

  /** `retry.With(ctx, target, opts)`. The source dereferences the strategy,
      so it must be configured; its only caller checks that. */
  method With(ctx: Context, target: Target, opts: Opts) returns (err: Option<Error>, attempts: nat)
    requires opts.backoff.Some?
    ensures Outcome(err, attempts) == RetryOutcome(ctx, target, opts)
  {
    var allowed := opts.backoff.value.allowed;
    // strategy.Reset(): no call has reached the strategy or the cap yet
    var baseCalls := 0;
    var numTries := 0;
    var k := 0;
    while true
      invariant k <= allowed
      invariant baseCalls == k
      invariant numTries == (if opts.maxRetry > 0 then k else 0)
      invariant RetryFrom(ctx, target, opts, k) == RetryFrom(ctx, target, opts, 0)
      decreases allowed - k
    {
      var verdict := Classify(target(k), opts.criticalError);
      if verdict.Success? {
        return None, k + 1;
      }
      if verdict.Permanent? {
        return Some(verdict.err), k + 1;
      }
      // NextBackOff through WithMaxRetries, WithContext and the strategy
      var next := Wait;
      if opts.maxRetry > 0 && opts.maxRetry <= numTries {
        next := Stop;
      } else {
        if opts.maxRetry > 0 {
          numTries := numTries + 1;
        }
        if DoneAt(ctx, 2 * k) {
          next := Stop;
        } else {
          next := if baseCalls < allowed then Wait else Stop;
          baseCalls := baseCalls + 1;
        }
      }
      if next == Stop {
        var cerr := ErrAt(ctx, 2 * k);
        if cerr.Some? {
          return cerr, k + 1;
        }
        return Some(verdict.err), k + 1;
      }
      // the sleep observes the context and returns its error when it is done
      var serr := ErrAt(ctx, 2 * k + 1);
      if serr.Some? {
        return serr, k + 1;
      }
      k := k + 1;
    }
  }

  /** A critical error stops the run after that attempt, whatever budget
      remains, even when the target wrapped it: no attempt after it is
      made, and if the run gets that far the critical error is returned. */
  lemma {:induction false} CriticalStopsAtOnce(ctx: Context, target: Target, opts: Opts, k: nat)
    requires opts.backoff.Some? && opts.criticalError.Some?
    requires target(k).Some? && Is(target(k).value, opts.criticalError.value)
    ensures RetryOutcome(ctx, target, opts).attempts <= k + 1
    ensures RetryOutcome(ctx, target, opts).attempts == k + 1 ==> RetryOutcome(ctx, target, opts).err == target(k)
  {
    var r := RetryFrom(ctx, target, opts, 0);
    assert Classify(target(k), opts.criticalError).Permanent?;
  }

  /** How many retries the chain grants while the context stays live: the
      cap when it is positive and below the strategy's budget, the
      strategy's budget otherwise. */
  function Budget(opts: Opts): nat
    requires opts.backoff.Some?
  {
    var allowed := opts.backoff.value.allowed;
    if opts.maxRetry > 0 && opts.maxRetry < allowed then opts.maxRetry else allowed
  }

  /** A target that keeps failing with retryable errors, under a context
      that stays live, is retried until the budget is spent: it runs
      exactly Budget + 1 times and the last attempt's error is returned. */
  lemma RetryableFailuresSpendTheBudget(ctx: Context, target: Target, opts: Opts)
    requires opts.backoff.Some?
    requires !DoneAt(ctx, 2 * Budget(opts))
    requires forall j | 0 <= j <= Budget(opts) :: Classify(target(j), opts.criticalError).Retryable?
    ensures RetryOutcome(ctx, target, opts) == Outcome(target(Budget(opts)), Budget(opts) + 1)
  {
    RetriesUntilBudget(ctx, target, opts, 0);
  }

  lemma {:induction false} RetriesUntilBudget(ctx: Context, target: Target, opts: Opts, k: nat)
    requires opts.backoff.Some?
    requires !DoneAt(ctx, 2 * Budget(opts))
    requires forall j | 0 <= j <= Budget(opts) :: Classify(target(j), opts.criticalError).Retryable?
    requires k <= Budget(opts)
    ensures RetryFrom(ctx, target, opts, k) == Outcome(target(Budget(opts)), Budget(opts) + 1)
    decreases Budget(opts) - k
  {
    assert Classify(target(k), opts.criticalError).Retryable?;
    if k < Budget(opts) {
      assert NextBackOff(ctx, opts, k) == Wait;
      assert !DoneAt(ctx, 2 * k + 1);
      RetriesUntilBudget(ctx, target, opts, k + 1);
    }
  }

  /** When the cap is positive, the strategy allows at least as many
      retries and the context stays live, a target that keeps failing
      with retryable errors runs exactly MaxRetry + 1 times and the last
      attempt's error is returned. */
  lemma MaxRetryExhausted(ctx: Context, target: Target, opts: Opts)
    requires opts.backoff.Some? && opts.maxRetry > 0
    requires opts.maxRetry <= opts.backoff.value.allowed
    requires !DoneAt(ctx, 2 * opts.maxRetry)
    requires forall j | 0 <= j <= opts.maxRetry :: Classify(target(j), opts.criticalError).Retryable?
    ensures RetryOutcome(ctx, target, opts) == Outcome(target(opts.maxRetry), opts.maxRetry + 1)
  {
    RetryableFailuresSpendTheBudget(ctx, target, opts);
  }

  /** With MaxRetry 0 there is no cap: a target that keeps failing with
      retryable errors under a live context is retried until the strategy
      says Stop. */
  lemma NoCapRetriesUntilTheStrategyStops(ctx: Context, target: Target, opts: Opts)
    requires opts.backoff.Some? && opts.maxRetry == 0
    requires !DoneAt(ctx, 2 * opts.backoff.value.allowed)
    requires forall j | 0 <= j <= opts.backoff.value.allowed :: Classify(target(j), opts.criticalError).Retryable?
    ensures RetryOutcome(ctx, target, opts) ==
      Outcome(target(opts.backoff.value.allowed), opts.backoff.value.allowed + 1)
  {
    RetryableFailuresSpendTheBudget(ctx, target, opts);
  }

  /** A context that is cancelled while the loop sleeps after the first
      attempt ends the loop with its error. */
  lemma CancelledDuringSleep(target: Target, opts: Opts, cause: ContextError)
    requires opts.backoff.Some? && opts.backoff.value.allowed >= 1
    requires Classify(target(0), opts.criticalError).Retryable?
    ensures RetryOutcome(Context(Some(1), cause), target, opts) == Outcome(Some(cause), 1)
  {
  }

  /** A wrap of the critical error is critical, but a second wrap of the
      critical error's own cause, made apart from it with the same text, is
      not: `errors.Is` compares errors by identity. */
  lemma OnlyTheCriticalErrorItselfIsPermanent(base: Error, context: string, criticalId: nat, attemptId: nat, outer: string, outerId: nat)
    requires criticalId != attemptId
    ensures var critical := Wrap(base, context, criticalId);
      Classify(Some(Wrap(critical, outer, outerId)), Some(critical)).Permanent? &&
      Classify(Some(Wrap(base, context, attemptId)), Some(critical)).Retryable?
  {
    SeparateWrapsDoNotMatch(base, context, attemptId, criticalId);
  }

  /** A context that is already done lets the target run once and its
      error, not the attempt's, is returned. */
  lemma CancelledContextRunsOnce(ctx: Context, target: Target, opts: Opts)
    requires opts.backoff.Some?
    requires DoneAt(ctx, 0)
    requires Classify(target(0), opts.criticalError).Retryable?
    ensures RetryOutcome(ctx, target, opts) == Outcome(Some(ctx.cause), 1)
  {
  }

  /** A target that fails twice and then succeeds, with MaxRetry 3, ends
      with success after exactly three calls. */
  lemma FailTwiceThenSucceed(boom: Error, allowed: nat)
    requires allowed >= 2
    ensures var target := (k: nat) => if k < 2 then Some(boom) else None;
      RetryOutcome(Background(), target, Opts(Some(Strategy(allowed)), None, 3)) == Outcome(None, 3)
  {
    var target := (k: nat) => if k < 2 then Some(boom) else None;
    var opts := Opts(Some(Strategy(allowed)), None, 3);
    assert RetryFrom(Background(), target, opts, 2) == Outcome(None, 3);
    assert RetryFrom(Background(), target, opts, 1) == Outcome(None, 3);
  }
}
