/** The supervisor `App`: it initializes every service, collecting all
    failures; then launches one worker per service, each running the
    service once or under its restart policy; marks its readiness gate once
    every worker is launched; and, once the workers have drained, resets the
    gate and delivers the first error that arrived, or none.

    The worker pool is modelled by its results: each worker's outcome is
    determined by its service's oracles and its context, and the order in
    which the workers finish is a parameter. */
module Application {
  import opened Errors
  import opened Contexts
  import opened Retry
  import opened Services
  import opened Waiters

  /** `ErrStarted`. Sentinel id 0 is reserved for it. */
  const ErrStarted: Error := Sentinel(0, "application is already started")

  /** A result channel of capacity one: the value sent on it, if any, and
      whether it is closed. */
  datatype Channel = Channel(sent: Option<Error>, closed: bool)

  function Names(services: seq<Service>): seq<string>
  {
    seq(|services|, i requires 0 <= i < |services| => services[i].name)
  }

  function Messages(es: seq<Error>): seq<string>
  {
    seq(|es|, i requires 0 <= i < |es| => Message(es[i]))
  }

  /** The services' `Init` failures, in the order of the services. */
  function InitFailures(services: seq<Service>): (fs: seq<Error>)
    ensures |fs| <= |services|
  {
    if |services| == 0 then []
    else
      var last := services[|services| - 1].servicer.init;
      InitFailures(services[..|services| - 1]) + (if last.Some? then [last.value] else [])
  }

  /** What `init` returns: nil when no service fails; otherwise one error
      that matches every failure and prints them one per line, in order. */
  function InitOutcome(services: seq<Service>): (r: Option<Error>)
    ensures r.None? <==> InitFailures(services) == []
    ensures r.Some? ==> Message(r.value) == JoinLines(Messages(InitFailures(services)))
    ensures r.Some? ==> forall j | 0 <= j < |InitFailures(services)| :: Is(r.value, InitFailures(services)[j])
  {
    if |services| == 0 then None
    else
      var prefix := services[..|services| - 1];
      var last := services[|services| - 1].servicer.init;
      var acc := InitOutcome(prefix);
      if last.None? then
        assert InitFailures(services) == InitFailures(prefix);
        acc
      else
        var r := Join(acc, last, |services| - 1);
        JoinedFailures(InitFailures(prefix), acc, last.value, |services| - 1);
        r
  }

  /** One more failure joined onto the failures so far. */
  lemma JoinedFailures(fs: seq<Error>, acc: Option<Error>, e: Error, id: nat)
    requires acc.None? <==> fs == []
    requires acc.Some? ==> Message(acc.value) == JoinLines(Messages(fs))
    requires acc.Some? ==> forall j | 0 <= j < |fs| :: Is(acc.value, fs[j])
    ensures Message(Join(acc, Some(e), id).value) == JoinLines(Messages(fs + [e]))
    ensures forall j | 0 <= j < |fs + [e]| :: Is(Join(acc, Some(e), id).value, (fs + [e])[j])
  {
    var ms := Messages(fs + [e]);
    assert ms[..|fs|] == Messages(fs);
    assert ms[|fs|] == Message(e);
    if acc.Some? {
      forall j | 0 <= j < |fs + [e]|
        ensures Is(Join(acc, Some(e), id).value, (fs + [e])[j])
      {
        if j < |fs| {
          IsTransitive(Join(acc, Some(e), id).value, acc.value, fs[j]);
        }
      }
    }
  }

  /** `init`: calls `Init` on every service in order, even after a failure,
      and joins the failures. `initialized` lists the services whose `Init`
      was called, in call order. The join made at the i-th service is
      allocated as i. */
  method Init(services: seq<Service>) returns (errs: Option<Error>, initialized: seq<string>)
    ensures errs == InitOutcome(services)
    ensures initialized == Names(services)
  {
    errs, initialized := None, [];
    if |services| == 0 {
      return;
    }
    for i := 0 to |services|
      invariant errs == InitOutcome(services[..i])
      invariant initialized == Names(services[..i])
    {
      InitStep(services, i);
      NamesStep(services, i);
      initialized := initialized + [services[i].name];
      var err := services[i].servicer.init;
      if err.Some? {
        errs := Join(errs, err, i);
      }
    }
    assert services[..|services|] == services;
  }

  /** One more service visited by `init`. */
  lemma InitStep(services: seq<Service>, i: nat)
    requires i < |services|
    ensures InitOutcome(services[..i + 1]) ==
      if services[i].servicer.init.Some? then Join(InitOutcome(services[..i]), services[i].servicer.init, i)
      else InitOutcome(services[..i])
  {
    var p := services[..i + 1];
    assert p[..|p| - 1] == services[..i];
    assert p[|p| - 1] == services[i];
  }

  lemma NamesStep(services: seq<Service>, i: nat)
    requires i < |services|
    ensures Names(services[..i + 1]) == Names(services[..i]) + [services[i].name]
  {
  }

  /** The error a crashed service reports, allocated as `id`: its cause
      wrapped with the service's name. */
  function Crashed(name: string, cause: Error, id: nat): (e: Error)
    ensures Message(e) == "service '" + name + "' crashed: " + Message(cause)
    ensures forall t :: Is(cause, t) ==> Is(e, t)
    ensures !Is(cause, e)
  {
    Wrap(cause, "service '" + name + "' crashed", id)
  }

  /** What the service's run returns before wrapping, and how many times
      `Run` was called: under the restart policy when it applies, once
      otherwise. */
  function RunOutcome(s: Service, ctx: Context): (r: Outcome)
    ensures 1 <= r.attempts
    // the service stopped cleanly exactly when its last run returned nil
    ensures r.err.None? <==> s.servicer.run(r.attempts - 1).None?
  {
    if RestartApplies(s) then RetryOutcome(ctx, s.servicer.run, s.restartOpts)
    else Outcome(s.servicer.run(0), 1)
  }

  /** What `runService` returns, with `id` the allocation of its crash
      error: nil for a clean stop, otherwise the crash error, which names
      the service and still matches its cause. */
  function ServiceOutcome(s: Service, ctx: Context, id: nat): (r: Option<Error>)
    ensures r.None? <==> RunOutcome(s, ctx).err.None?
    ensures r.Some? ==> r.value == Crashed(s.name, RunOutcome(s, ctx).err.value, id)
  {
    match RunOutcome(s, ctx).err
    case None => None
    case Some(e) => Some(Crashed(s.name, e, id))
  }

  /** `runService`. */
  method RunService(s: Service, ctx: Context, id: nat) returns (err: Option<Error>, runs: nat)
    ensures err == ServiceOutcome(s, ctx, id)
    ensures runs == RunOutcome(s, ctx).attempts
  {
    var enableRestart := s.restartEnabled;
    if enableRestart && s.restartOpts.backoff.None? {
      // restart is skipped with a warning
      enableRestart := false;
    }
    if enableRestart {
      err, runs := With(ctx, s.servicer.run, s.restartOpts);
    } else {
      err, runs := s.servicer.run(0), 1;
    }
    if err.Some? {
      err := Some(Crashed(s.name, err.value, id));
    }
  }

  /** A `Run` that returns nil is terminal: it is not restarted, whatever
      the restart settings, and the service reports no error. */
  lemma NilRunIsTerminal(s: Service, ctx: Context, id: nat)
    requires s.servicer.run(0).None?
    ensures RunOutcome(s, ctx) == Outcome(None, 1)
    ensures ServiceOutcome(s, ctx, id) == None
  {
  }

  /** Without restart enabled, or with restart enabled but no strategy,
      `Run` is called exactly once and its error is reported wrapped. */
  lemma WithoutStrategyRunsOnce(s: Service, ctx: Context, id: nat)
    requires !s.restartEnabled || s.restartOpts.backoff.None?
    ensures RunOutcome(s, ctx).attempts == 1
    ensures ServiceOutcome(s, ctx, id) == if s.servicer.run(0).None? then None else Some(Crashed(s.name, s.servicer.run(0).value, id))
  {
  }

  /** `Run` is called again only after it returned an error, so a nil
      `Run` is terminal at every restart; only when the restart policy
      applies; and never more than MaxRetry + 1 times. */
  lemma RestartOnlyAfterErrorAndByPolicy(s: Service, ctx: Context)
    ensures RunOutcome(s, ctx).attempts > 1 ==> RestartApplies(s)
    ensures forall j | 0 <= j < RunOutcome(s, ctx).attempts - 1 :: s.servicer.run(j).Some?
    ensures RestartApplies(s) && s.restartOpts.maxRetry > 0 ==> RunOutcome(s, ctx).attempts <= s.restartOpts.maxRetry + 1
  {
    if RunOutcome(s, ctx).attempts > 1 {
      var r := RetryFrom(ctx, s.servicer.run, s.restartOpts, 0);
      assert Classify(s.servicer.run(0), s.restartOpts.criticalError).Retryable?;
    }
  }

  /** A crash caused by the critical error still matches the critical
      error: the run stops at the first critical attempt. */
  lemma CriticalCrashMatchesCritical(s: Service, ctx: Context, critical: Error, id: nat)
    requires RestartApplies(s) && s.restartOpts.criticalError == Some(critical)
    requires s.servicer.run(0) == Some(critical)
    ensures RunOutcome(s, ctx).attempts == 1
    ensures ServiceOutcome(s, ctx, id) == Some(Crashed(s.name, critical, id))
    ensures Is(ServiceOutcome(s, ctx, id).value, critical)
  {
  }

  /** A service that keeps failing with MaxRetry 1 and a live context is
      run exactly twice and reports the second error. */
  lemma MaxRetryOneRunsTwice(s: Service, ctx: Context, id: nat)
    requires RestartApplies(s) && s.restartOpts.maxRetry == 1 && s.restartOpts.backoff.value.allowed >= 1
    requires !DoneAt(ctx, 2)
    requires forall j | 0 <= j <= 1 :: Classify(s.servicer.run(j), s.restartOpts.criticalError).Retryable?
    ensures RunOutcome(s, ctx).attempts == 2
    ensures ServiceOutcome(s, ctx, id) == Some(Crashed(s.name, s.servicer.run(1).value, id))
  {
    MaxRetryExhausted(ctx, s.servicer.run, s.restartOpts);
  }

  /** With restart applying and the context already cancelled, a failing
      service runs once and reports the cancellation, wrapped. */
  lemma CancelledContextCrash(s: Service, id: nat)
    requires RestartApplies(s)
    requires Classify(s.servicer.run(0), s.restartOpts.criticalError).Retryable?
    ensures RunOutcome(s, Cancelled()).attempts == 1
    ensures ServiceOutcome(s, Cancelled(), id) == Some(Crashed(s.name, Canceled, id))
  {
    CancelledContextRunsOnce(Cancelled(), s.servicer.run, s.restartOpts);
  }

  /** The pool's result: the first error in the order the workers finished. */
  function FirstError(results: seq<Option<Error>>): (r: Option<Error>)
    ensures r.None? <==> forall i | 0 <= i < |results| :: results[i].None?
    ensures r.Some? ==> exists i | 0 <= i < |results| :: results[i] == r && forall j | 0 <= j < i :: results[j].None?
  {
    if |results| == 0 then None
    else if results[0].Some? then results[0]
    else
      var r := FirstError(results[1..]);
      FirstErrorOfTail(results, r);
      r
  }

  lemma FirstErrorOfTail(results: seq<Option<Error>>, r: Option<Error>)
    requires |results| > 0 && results[0].None?
    requires r.Some? ==> exists i | 0 <= i < |results[1..]| :: results[1..][i] == r && forall j | 0 <= j < i :: results[1..][j].None?
    ensures r.Some? ==> exists i | 0 <= i < |results| :: results[i] == r && forall j | 0 <= j < i :: results[j].None?
  {
    if r.Some? {
      var i :| 0 <= i < |results[1..]| && results[1..][i] == r && forall j | 0 <= j < i :: results[1..][j].None?;
      assert results[i + 1] == r && forall j | 0 <= j < i + 1 :: results[j].None?;
    }
  }

  /** `arrival` lists every worker exactly once, in the order they finished. */
  ghost predicate IsArrivalOrder(arrival: seq<nat>, n: nat)
  {
    |arrival| == n &&
    (forall k | 0 <= k < n :: arrival[k] < n) &&
    (forall i | 0 <= i < n :: i in arrival)
  }

  /** The workers' results in arrival order. */
  function Arrange(results: seq<Option<Error>>, arrival: seq<nat>): (r: seq<Option<Error>>)
    requires forall k | 0 <= k < |arrival| :: arrival[k] < |results|
    ensures |r| == |arrival|
    ensures forall k | 0 <= k < |arrival| :: r[k] == results[arrival[k]]
  {
    seq(|arrival|, k requires 0 <= k < |arrival| => results[arrival[k]])
  }

  /** The arrival order decides only which error is reported: there is one
      exactly when some worker failed, and it is one of the workers' errors. */
  lemma ArrivalOrderOnlyPicksTheError(results: seq<Option<Error>>, arrival: seq<nat>)
    requires IsArrivalOrder(arrival, |results|)
    ensures FirstError(Arrange(results, arrival)).None? <==> forall i | 0 <= i < |results| :: results[i].None?
    ensures FirstError(Arrange(results, arrival)).Some? ==>
      exists i | 0 <= i < |results| :: results[i] == FirstError(Arrange(results, arrival))
  {
    var arranged := Arrange(results, arrival);
    if FirstError(arranged).None? {
      forall i | 0 <= i < |results| ensures results[i].None? {
        assert i in arrival;
        var k :| 0 <= k < |arrival| && arrival[k] == i;
        assert arranged[k] == results[i];
      }
    } else {
      var k :| 0 <= k < |arranged| && arranged[k] == FirstError(arranged) && forall j | 0 <= j < k :: arranged[j].None?;
      assert results[arrival[k]] == FirstError(arranged);
    }
  }

  /** Each worker's result, in the order of the services. The crash error
      of the i-th worker is allocated as i. */
  function Outcomes(services: seq<Service>, ctxOf: nat -> Context): (rs: seq<Option<Error>>)
    ensures |rs| == |services|
    ensures forall i | 0 <= i < |services| :: rs[i] == ServiceOutcome(services[i], ctxOf(i), i)
  {
    seq(|services|, i requires 0 <= i < |services| => ServiceOutcome(services[i], ctxOf(i), i))
  }

  /** What `Run` returns on an app that is not started yet: nil for no
      services, the init error when init fails, and otherwise the pool's
      first error. */
  function RunResult(services: seq<Service>, ctxOf: nat -> Context, arrival: seq<nat>): Option<Error>
    requires IsArrivalOrder(arrival, |services|)
  {
    if |services| == 0 then None
    else if InitOutcome(services).Some? then InitOutcome(services)
    else FirstError(Arrange(Outcomes(services, ctxOf), arrival))
  }

  /** Zero services: `Run` succeeds at once. */
  lemma NoServicesNoError(ctxOf: nat -> Context)
    ensures RunResult([], ctxOf, []) == None
  {
  }

  /** An init failure is what `Run` reports, and it matches every service's
      init failure. */
  lemma InitFailureIsReported(services: seq<Service>, ctxOf: nat -> Context, arrival: seq<nat>)
    requires IsArrivalOrder(arrival, |services|)
    requires exists i | 0 <= i < |services| :: services[i].servicer.init.Some?
    ensures RunResult(services, ctxOf, arrival) == InitOutcome(services)
    ensures RunResult(services, ctxOf, arrival).Some?
  {
    var i :| 0 <= i < |services| && services[i].servicer.init.Some?;
    InitFailuresCoverEvery(services, i);
  }

  /** Every service's init failure appears among the failures. */
  lemma {:induction false} InitFailuresCoverEvery(services: seq<Service>, i: nat)
    requires i < |services| && services[i].servicer.init.Some?
    ensures services[i].servicer.init.value in InitFailures(services)
  {
    if i < |services| - 1 {
      InitFailuresCoverEvery(services[..|services| - 1], i);
    }
  }

  /** After a clean init, `Run` reports nil exactly when every service
      stopped cleanly, and otherwise a crash error naming one of the
      services and matching that service's cause. */
  lemma RunErrorIsAServiceCrash(services: seq<Service>, ctxOf: nat -> Context, arrival: seq<nat>)
    requires IsArrivalOrder(arrival, |services|)
    requires |services| > 0 && InitOutcome(services).None?
    ensures RunResult(services, ctxOf, arrival).None? <==>
      forall i | 0 <= i < |services| :: RunOutcome(services[i], ctxOf(i)).err.None?
    ensures RunResult(services, ctxOf, arrival).Some? ==>
      exists i | 0 <= i < |services| :: RunOutcome(services[i], ctxOf(i)).err.Some? &&
        RunResult(services, ctxOf, arrival).value == Crashed(services[i].name, RunOutcome(services[i], ctxOf(i)).err.value, i)
  {
    var results := Outcomes(services, ctxOf);
    var first := FirstError(Arrange(results, arrival));
    assert RunResult(services, ctxOf, arrival) == first;
    ArrivalOrderOnlyPicksTheError(results, arrival);
    forall i | 0 <= i < |services|
      ensures results[i].None? <==> RunOutcome(services[i], ctxOf(i)).err.None?
    {
    }
    if first.Some? {
      var i :| 0 <= i < |results| && results[i] == first;
      assert RunOutcome(services[i], ctxOf(i)).err.Some?;
    }
  }

  /** The launch loop of `RunCh`: one worker per service, in order, each
      running `runService` with its own context. A worker's outcome is kept
      until the pool drains. */
  method Launch(services: seq<Service>, ctxOf: nat -> Context) returns (results: seq<Option<Error>>)
    ensures results == Outcomes(services, ctxOf)
  {
    results := [];
    for i := 0 to |services|
      invariant |results| == i
      invariant forall j | 0 <= j < i :: results[j] == ServiceOutcome(services[j], ctxOf(j), j)
    {
      var r, _ := RunService(services[i], ctxOf(i), i);
      results := results + [r];
    }
  }

  /** The supervisor, updated in place. The gate is the running flag: it
      is ready exactly while a run's workers are in flight. */
  class App {
    var name: string
    var services: seq<Service>
    var debug: bool
    const startedWaiter: Waiter
    // the results of the workers of the run in flight, in service order
    var workers: Option<seq<Option<Error>>>

    ghost predicate Valid()
      reads this, startedWaiter
    {
      startedWaiter.Valid() && (startedWaiter.ready <==> workers.Some?)
    }

    constructor (name: string, services: seq<Service>, debug: bool)
      ensures Valid() && fresh(startedWaiter)
      ensures this.name == name && this.services == services && this.debug == debug
      ensures startedWaiter.State() == ZeroGate() && workers.None?
    {
      this.name, this.services, this.debug := name, services, debug;
      startedWaiter := new Waiter();
      workers := None;
    }

    /** `RunCh`, up to the point where it hands back the channel. `ctxOf(i)`
        is the context the i-th service's worker runs with; `initialized`
        lists the services whose `Init` was called, in call order. */
    method RunCh(ctxOf: nat -> Context) returns (ch: Channel, initialized: seq<string>)
      requires Valid()
      modifies this, startedWaiter
      ensures Valid()
      ensures name == old(name) && services == old(services) && debug == old(debug)
      ensures old(startedWaiter.ready) ==>
        ch == Channel(Some(ErrStarted), true) && initialized == [] &&
        unchanged(startedWaiter) && workers == old(workers)
      ensures !old(startedWaiter.ready) && |services| == 0 ==>
        ch == Channel(None, true) && initialized == [] &&
        unchanged(startedWaiter) && workers == old(workers)
      ensures !old(startedWaiter.ready) && |services| > 0 ==> initialized == Names(services)
      ensures !old(startedWaiter.ready) && |services| > 0 && InitOutcome(services).Some? ==>
        ch == Channel(InitOutcome(services), true) && unchanged(startedWaiter) && workers == old(workers)
      ensures !old(startedWaiter.ready) && |services| > 0 && InitOutcome(services).None? ==>
        ch == Channel(None, false) && workers == Some(Outcomes(services, ctxOf)) &&
        startedWaiter.State() == AfterSet(old(startedWaiter.State()), true)
    {
      initialized := [];
      if startedWaiter.Is(true) {
        return Channel(Some(ErrStarted), true), initialized;
      }
      if |services| == 0 {
        return Channel(None, true), initialized;
      }
      var err;
      err, initialized := Init(services);
      if err.Some? {
        return Channel(err, true), initialized;
      }
      var results := Launch(services, ctxOf);
      // every worker is launched: the app is started
      startedWaiter.Set(true);
      workers := Some(results);
      ch := Channel(None, false);
    }

    /** The rest of `RunCh`, once every worker has finished; `arrival` is
        the order in which they finished. The first error is sent, the gate
        is reset, and then the channel is closed. */
    method Drain(arrival: seq<nat>) returns (ch: Channel)
      requires Valid() && workers.Some?
      requires IsArrivalOrder(arrival, |workers.value|)
      modifies this, startedWaiter
      ensures Valid() && workers.None?
      ensures name == old(name) && services == old(services) && debug == old(debug)
      ensures ch == Channel(FirstError(Arrange(old(workers.value), arrival)), true)
      ensures startedWaiter.State() == AfterSet(old(startedWaiter.State()), false)
    {
      var err := FirstError(Arrange(workers.value, arrival));
      ch := Channel(err, false);
      startedWaiter.Set(false);
      workers := None;
      ch := ch.(closed := true);
    }

    /** `Run`: `RunCh`, then the first value read from its channel. A run
        that is refused or ends before launching leaves the gate and the
        workers as they were; a run that launches raises the gate once and
        resets it once the workers have drained. */
    method Run(ctxOf: nat -> Context, arrival: seq<nat>) returns (err: Option<Error>)
      requires Valid()
      requires IsArrivalOrder(arrival, |services|)
      modifies this, startedWaiter
      ensures Valid()
      ensures name == old(name) && services == old(services) && debug == old(debug)
      ensures old(startedWaiter.ready) ==>
        err == Some(ErrStarted) && unchanged(startedWaiter) && workers == old(workers)
      ensures !old(startedWaiter.ready) ==> err == RunResult(services, ctxOf, arrival) && !startedWaiter.ready
      ensures !old(startedWaiter.ready) && (|services| == 0 || InitOutcome(services).Some?) ==>
        unchanged(startedWaiter) && workers == old(workers)
      ensures !old(startedWaiter.ready) && |services| > 0 && InitOutcome(services).None? ==>
        startedWaiter.State() == AfterSet(AfterSet(old(startedWaiter.State()), true), false) &&
        workers.None?
    {
      var ch, _ := RunCh(ctxOf);
      if ch.closed {
        return ch.sent;
      }
      ch := Drain(arrival);
      err := ch.sent;
    }

    method WaitCh() returns (channel: nat)
      requires Valid()
      modifies startedWaiter
      ensures Valid()
      ensures (startedWaiter.State(), channel) == AfterWaitCh(old(startedWaiter.State()))
    {
      channel := startedWaiter.WaitCh();
    }

    method Wait(ctx: Context, checkpoint: nat, preferReady: bool) returns (r: WaitResult)
      requires Valid()
      modifies startedWaiter
      ensures Valid()
      ensures startedWaiter.State() == AfterWaitCh(old(startedWaiter.State())).0
      ensures old(startedWaiter.ready) && (!DoneAt(ctx, checkpoint) || preferReady) ==> r == Returned(None)
      ensures old(startedWaiter.ready) && DoneAt(ctx, checkpoint) && !preferReady ==> r == Returned(Some(ctx.cause))
      ensures !old(startedWaiter.ready) && DoneAt(ctx, checkpoint) ==> r == Returned(Some(ctx.cause))
      ensures !old(startedWaiter.ready) && !DoneAt(ctx, checkpoint) ==> r == Parked(old(startedWaiter.nextId))
    {
      r := startedWaiter.Wait(ctx, checkpoint, preferReady);
    }
  }
}
