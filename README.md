# appetizer: a verified model of the supervisor's decision logic

appetizer runs a set of background services under one application. Each
service has a name, a `Servicer` (its `Init` and `Run`), and an optional
restart policy. The application works in four steps:

- It initializes every service and joins their failures.
- It launches one worker per service. Each worker runs the service once, or
  under the restart policy.
- It marks its readiness gate (`Waiter`) ready once every worker is
  launched.
- Once the workers have drained, it resets the gate and delivers the first
  error that arrived, or none.

This project models three parts of that logic in Dafny and proves their
contracts:

- the readiness gate (`waiter.go`);
- the restart policy `retry.With` (`retry/retry.go`);
- the front end of `App`: its guards, `init`, `runService`, gate handling
  and the pool's result (`app.go`, with the descriptors of `service.go`).

Files and modules:

- `errors.dfy` (`Errors`): error values. They are sentinels, the two
  context errors, `errors.Wrapf` wrap chains and `errors.Join` aggregates.
  Sentinels, wraps and joins carry the identity of the allocation that
  made them, since `errors.Is` compares them by pointer. `Message` gives
  an error's text and `Is` models `errors.Is`.
- `context.dfy` (`Contexts`): a context as an oracle. It is the first
  checkpoint at which the context is seen done, plus the error it then
  reports.
- `retry.dfy` (`Retry`): the per-attempt classifier, the backoff chain's
  stop decision, the attempt loop as a function (`RetryFrom`), and the
  method `With`, proved equal to that function.
- `waiter.dfy` (`Waiters`): the gate as a value (`Gate`) with one step
  function per operation. The class `Waiter` has the same fields and
  methods, proved to change its state exactly as the step functions say.
- `service.dfy` (`Services`): the `Service` descriptor, plus the `Servicer`
  as outcome oracles.
- `app.dfy` (`Application`): `init`, `runService`, the launch loop, the
  pool's first-error result, and the class `App`.

Oracles stand in for what the model cannot see:

- A servicer's `Init` result is a value.
- The k-th call of `Run` within one run of a service is a function `run(k)`.
- The backoff strategy is the number of intervals it grants before it says
  Stop.
- A context is the checkpoint at which it is first seen done.
- The order in which the workers finish is a permutation `arrival` of the
  service indices.

## Model

| member | source | states |
|---|---|---|
| Errors.Wrap | app.go:171-173 | a new error, allocated as `id`, whose text is the context, ": " and the cause's text; it still `Is` everything the cause `Is`, and the cause does not `Is` it |
| Errors.Join | app.go:140 | a new joined error, allocated as `id`: nil exactly when both arguments are nil; otherwise the result `Is` each non-nil argument, and its text is the two texts on separate lines, or just the one text when only one argument is non-nil |
| Errors.Is | retry/retry.go:46 | `errors.Is`: every error matches itself, and an error with nothing to unwrap (a sentinel or a context error) matches only itself |
| Errors.Message | app.go:140 | `err.Error()`; a joined error with one member prints just that member |
| Errors.IsBoundsDepth | retry/retry.go:46 | an error only matches errors found inside it, so never one that nests deeper |
| Errors.SeparateWrapsDoNotMatch | retry/retry.go:15-17 | two wraps of one cause with the same text, made by two calls, print the same but do not match each other |
| Errors.IsTransitive | retry/retry.go:46 | matching through a wrap or join chain composes: if e `Is` m and m `Is` t, then e `Is` t |
| Contexts.ErrAt | retry/retry.go:29-36 | `ctx.Err()`, as the retry loop reads it when the chain says Stop and when a sleep is cut short: non-nil exactly once the context is done, and then the context's cause |
| Contexts.Background | app_test.go:140 | a context that is never done |
| Contexts.Cancelled | app_test.go:300-330 | a context cancelled before the run is done at every checkpoint and reports `context canceled` |
| Retry.Classify | retry/retry.go:36-51 | success exactly for nil; permanent exactly when a critical error is set and the error `Is` it; retryable otherwise; the error is passed on unchanged |
| Retry.NextBackOff | retry/retry.go:29-34 | the chain waits again exactly when the cap (if positive) is not reached, the context is not done, and the strategy still grants an interval |
| Retry.RetryFrom | retry/retry.go:36-51 | every attempt but the last was retryable, was followed by Wait and had its sleep run to the end; the result is nil exactly when the last attempt returned nil; a critical error is returned as it is; a retryable last attempt ended on Stop, returning `ctx.Err()` when non-nil and the attempt's error otherwise, or ended on a sleep cut short by the context, returning `ctx.Err()`; a positive cap bounds the attempts by MaxRetry + 1 |
| Retry.RetryOutcome | retry/retry.go:19-21 | after the reset the target runs at least once, and at most MaxRetry + 1 times when MaxRetry > 0 |
| Retry.With | retry/retry.go:26-52 | the attempt loop, with the cap's try counter and the strategy's call count, returns exactly `RetryOutcome` |
| Retry.CriticalStopsAtOnce | retry/retry.go:46-48 | an attempt whose error `Is` the critical error is the last one, whatever budget remains, and that error is returned |
| Retry.MaxRetryExhausted | app_test.go:248-274 | errors that keep being retryable, a live context and enough strategy budget give exactly MaxRetry + 1 attempts and the last attempt's error |
| Retry.CancelledContextRunsOnce | retry/retry.go:29 | a context already done before the first decision, with a retryable first attempt, lets the target run once and returns the context's error instead of the attempt's |
| Retry.CancelledDuringSleep | retry/retry.go:29 | a context cancelled during the first sleep ends the run after one attempt with the context's error |
| Retry.RetryableFailuresSpendTheBudget | retry/retry.go:32-51 | retryable failures under a live context are retried until the budget (the positive cap, or the strategy's count if smaller) is spent: Budget + 1 attempts and the last error |
| Retry.NoCapRetriesUntilTheStrategyStops | retry/retry.go:19-21 | with MaxRetry 0 there is no cap: retryable failures are retried until the strategy says Stop |
| Retry.OnlyTheCriticalErrorItselfIsPermanent | retry/retry.go:15-17 | a wrap of the critical error is permanent, but a separate wrap of the critical error's cause with the same text is retryable |
| Retry.FailTwiceThenSucceed | retry/retry.go:36-40 | two failures then nil with MaxRetry 3 end in success after exactly three calls |
| Waiters.ZeroGate | waiter.go:11-17 | the zero `Waiter` is not ready, has no condition, no broadcast and no waiter, and is consistent |
| Waiters.AfterEnsureCond | waiter.go:74-86 | the first call creates the condition unless one exists; later calls change nothing; nothing else changes |
| Waiters.AfterSet | waiter.go:62-67 | the flag becomes b; setting the value it has changes nothing; only a false-to-true swap broadcasts, releasing every pending waiter and leaving the condition created; `Set(false)` changes only the flag; consistency is kept |
| Waiters.AfterWaitCh | waiter.go:34-57 | a new channel id; when ready it is released at once and nothing else changes; otherwise it is pending and the condition exists; consistency is kept |
| Waiters.SetTrueRepeatedlyBroadcastsOnce | waiter.go:62-67 | any number of `Set(true)` calls have the effect of one and broadcast at most once |
| Waiters.WaitChWhileNotReady | waiter.go:42-54 | channels asked for while not ready are exactly the new pending ones; nothing is released |
| Waiters.WaitChWhileReady | waiter.go:36-40 | channels asked for while ready are all released at once; none becomes pending |
| Waiters.WaitersBeforeAndAfterAllFire | waiter_test.go:72-121 | waiters registered before and after `Set(true)` are all released, with exactly one broadcast |
| Waiters.ParkedWaiterReleasedByNextRise | waiter.go:42-67 | a waiter parked while not ready stays pending through `Set(false)` and is released by the next `Set(true)` |
| Waiters.ReArmBroadcastsAgain | waiter.go:62-67 | true, false, true broadcasts twice: the gate can be re-armed |
| Waiters.RiseAndResetReleasesEveryWaiter | app.go:96-100 | one launched run raises the gate and resets it: one broadcast, every waiter pending before it released, the gate not ready and consistent |
| Waiters.Waiter.constructor | waiter.go:11-17 | the new gate is `ZeroGate()` and valid |
| Waiters.Waiter.Is | waiter.go:70-72 | true exactly when the flag equals b |
| Waiters.Waiter.EnsureCond | waiter.go:74-86 | the object's new state is `AfterEnsureCond` of its old state |
| Waiters.Waiter.Broadcast | waiter.go:65 | the object's broadcast count grows by one and every pending waiter is released; nothing else changes |
| Waiters.Waiter.Set | waiter.go:62-67 | the object's new state is `AfterSet` of its old state, and it stays consistent |
| Waiters.Waiter.WaitCh | waiter.go:34-57 | the new state and the channel are `AfterWaitCh` of the old state |
| Waiters.Waiter.Wait | waiter.go:23-30 | with the select run at a checkpoint of the context: when ready, nil, or the context's error when the context is done too and the select picks it; when not ready, the context's error if the context is done, and otherwise the call blocks with its channel pending |
| Application.ErrStarted | app.go:17-19 | the sentinel `application is already started`, allocation 0 |
| Application.InitOutcome | app.go:126-149 | nil exactly when no service's `Init` fails; otherwise one error that `Is` every failure and prints the failures one per line, in service order |
| Application.Init | app.go:126-149 | calls `Init` on every service in order, also after a failure, and returns `InitOutcome` |
| Application.Crashed | app.go:171-173 | the crash error's text begins with `service '<name>' crashed: ` followed by the cause's text; it `Is` everything the cause `Is`, and the cause does not `Is` it |
| Services.RestartApplies | app.go:155-163 | restart applies exactly when it is enabled and a strategy is configured |
| Application.RunOutcome | app.go:155-169 | `Run` is called at least once, and the service stopped cleanly exactly when its last run returned nil |
| Application.ServiceOutcome | app.go:151-176 | nil exactly when the run's result is nil; otherwise the run's error wrapped with the service's name |
| Application.RunService | app.go:151-176 | returns `ServiceOutcome`, and calls `Run` as many times as `RunOutcome` counts |
| Application.NilRunIsTerminal | service.go:21-24 | a `Run` that returns nil is called once and is never restarted, whatever the restart settings |
| Application.WithoutStrategyRunsOnce | app.go:155-169 | without restart enabled, or with restart but no strategy, `Run` is called exactly once and its error is reported wrapped |
| Application.RestartOnlyAfterErrorAndByPolicy | service.go:22-27 | `Run` is called again only when the restart policy applies, every call before the last one returned an error (a nil `Run` is terminal at every restart), and there are never more than MaxRetry + 1 calls |
| Application.CriticalCrashMatchesCritical | app_test.go:191-217 | a critical error stops the service after one run, and the crash error still `Is` the critical error |
| Application.MaxRetryOneRunsTwice | app_test.go:248-274 | MaxRetry 1 with errors that keep failing runs the service exactly twice and reports the second error |
| Application.CancelledContextCrash | app_test.go:300-330 | when the restart policy applies and the first run fails with a retryable error, a cancelled context runs the service once and reports `context canceled`, wrapped |
| Application.FirstError | app.go:102-104 | nil exactly when every result is nil; otherwise the earliest non-nil result |
| Application.Arrange | app.go:102 | the k-th result in arrival order is the result of worker `arrival[k]` |
| Application.ArrivalOrderOnlyPicksTheError | app.go:72-75 | whatever the arrival order, the pool reports an error exactly when some worker failed, and the error reported is one of the workers' errors |
| Application.Outcomes | app.go:80-90 | the i-th worker's result is `runService` of the i-th service with its own context |
| Application.Launch | app.go:79-93 | the launch loop starts one worker per service, in order, and collects exactly `Outcomes` |
| Application.RunResult | app.go:58-107 | what `Run` returns on an app that is not started: nil for no services, the init error when init fails, and otherwise the pool's first error in arrival order; its properties are proved by the three lemmas below |
| Application.NoServicesNoError | app.go:58-63 | with no services `Run` returns nil |
| Application.InitFailureIsReported | app.go:65-70 | when some service fails `Init`, `Run` reports the init error, and that error is non-nil |
| Application.InitFailuresCoverEvery | app.go:138-141 | every service's `Init` failure is among the joined failures |
| Application.RunErrorIsAServiceCrash | app.go:96-107 | after a clean init `Run` returns nil exactly when every service stopped cleanly; otherwise it returns the crash error of a service whose run failed |
| Application.App.constructor | app.go:21-35 | a new app keeps its name, services and debug flag, and its gate is the zero gate |
| Application.App.RunCh | app.go:45-110 | when already started: `ErrStarted` on a closed channel, and no `Init` is called; with no services: a closed, empty channel, and no `Init` is called; in the other cases `Init` is called on every service in order. When init fails: the init error on a closed channel. In these three cases neither the gate nor the workers change. Otherwise every worker is launched with its outcome, then the gate is set ready and the channel stays open |
| Application.App.Drain | app.go:98-107 | the pool's first error in arrival order is delivered, the gate is reset to not ready and then the channel is closed |
| Application.App.Run | app.go:37-40 | `ErrStarted` when already started; otherwise exactly `RunResult`. When the run is refused or ends before launching, the gate and the workers are unchanged; when it launches, the state once the channel is closed is one rise and one reset of the gate and no workers left |
| Application.App.WaitCh | app.go:118-120 | delegates to the gate: the new gate state and the channel are `AfterWaitCh` |
| Application.App.Wait | app.go:122-124 | delegates to the gate, with the same four cases as `Waiters.Waiter.Wait` |

## Left out

- Concurrency is not modelled. That covers goroutines, `sync.WaitGroup`,
  the `conc` pool's scheduling and the timing of its cancel-on-first-error.
  Each worker's outcome is fixed by its service's oracles and by `ctxOf(i)`,
  the context it sees. A cancellation caused by another worker's failure is
  part of that oracle. The order in which workers finish is the `arrival`
  parameter.
- `App.RunCh` is split into two methods. `RunCh` covers the guards, init,
  launch and `Set(true)`. `Drain` covers the goroutine that waits for the
  pool. A concurrent `RunCh` or `Wait` between the two is not modelled.
- Application.App.Run: when the pool reports an error, the Go `Run` returns
  as soon as that error is sent on the channel. That can happen before the
  drain goroutine's deferred `Set(false)` runs, so the gate may still be
  ready, and a `Run` called at once may get `ErrStarted`. The model's
  post-state (gate reset, no workers) is the state once the channel is
  closed. When the pool reports nil there is no such window: the value is
  read only when the channel closes, after the reset.
- `App.RunCh`: the started check is a read followed later by `Set(true)`, not
  an atomic swap. Two concurrent calls could both pass it. The model runs
  calls one at a time, so it does not show that race.
- The application has no running flag separate from its gate. The gate's
  ready flag plays that role, and `App.Valid` ties it to whether a run's
  workers are in flight.
- Waking a parked waiter (`sync.Cond.Wait` and the loop that re-checks the
  flag) is not modelled. A broadcast releases every pending waiter at once.
- `Set` broadcasts without holding the condition's lock, so a waiter could
  miss the wake-up. The model does not show that race.
- `Waiters.Waiter.Wait`: Go's random choice between ready select cases is
  the `preferReady` parameter. The context is read at one checkpoint.
  Blocking is the `Parked` result, with the channel left pending.
- Wrap and Join take the allocation of the new error as a parameter. The
  callers in the model pass distinct allocations: the i-th service's join
  and crash error are allocated as i. The model does not stop an
  oracle-supplied error from reusing one of those allocations, which a Go
  pointer could not do.
- Retry.With: with a nil strategy the source panics at `strategy.Reset()`.
  The model requires a strategy instead; its only caller, `runService`,
  checks for one first.
- The backoff library is modelled only as a count of intervals:
  - Its intervals, randomisation, clocks and sleeping are left out. The
    strategy is the number of intervals it grants before it says Stop, so a
    strategy that never stops is not modelled.
  - The sleep is only a checkpoint at which the context may be seen done.
  - The context is read at a decision and again for its error. The model
    reads both at one checkpoint, so a cancellation between the two reads
    is not modelled.
- `Retry.Classify` models the classifier closure only for the errors a
  target returns. A target that returns `backoff.Permanent` itself is not
  modelled.
- `Services.Servicer`: any logging that `Init` and `Run` do, and their
  side effects, are not modelled. `Init` returns one fixed result per
  servicer value.
- The `Deps` field and the `Init(log, deps)` signature in `service.go` are
  not modelled. `app.go` calls `Init` with the logger only; a servicer's
  `Init` is an outcome.
- Logging is not modelled: `ensureLog`, `serviceLogger`, `Log` and
  `log/log.go`.
- Not part of this model: `signal.go`, `context.go`,
  `services/http.go`, `services/pprof.go`, `main.go` and
  `appetizer/main.go`.
