/** The readiness gate (`Waiter`): a ready flag changed by compare-and-swap,
    a condition created lazily and exactly once, and wait channels that
    fire when the flag becomes true. Every goroutine parked in `WaitCh` is
    represented by the id of its channel; a parked goroutine is pending, a
    fired channel is released. */
module Waiters {
  import opened Errors
  import opened Contexts

  /** The state of a gate as a value. */
  datatype Gate = Gate(
    ready: bool,         // the atomic ready flag
    onceDone: bool,      // the `once` guarding the condition has run
    condCreated: bool,   // the condition exists (cond != nil)
    broadcasts: nat,     // broadcasts made on the condition so far
    pending: set<nat>,   // channels whose goroutine waits on the condition
    released: set<nat>,  // channels that have fired
    nextId: nat)         // the id the next wait channel gets

  /** What every reachable gate satisfies. */
  ghost predicate Consistent(g: Gate)
  {
    g.condCreated == g.onceDone &&
    (g.pending != {} ==> g.condCreated) &&
    (g.broadcasts > 0 ==> g.condCreated) &&
    (g.ready ==> g.pending == {}) &&
    g.pending !! g.released &&
    (forall id | id in g.pending :: id < g.nextId) &&
    (forall id | id in g.released :: id < g.nextId)
  }

  /** The zero value `Waiter{}`: not ready, no condition, nothing waiting. */
  function ZeroGate(): (g: Gate)
    ensures !g.ready && !g.condCreated && g.broadcasts == 0 && g.pending == {} && g.released == {}
    ensures Consistent(g)
  {
    Gate(false, false, false, 0, {}, {}, 0)
  }

  /** `ensureCond`: the first call creates the condition unless one is
      already there; later calls change nothing. */
  function AfterEnsureCond(g: Gate): (r: Gate)
    ensures r.onceDone
    ensures g.onceDone ==> r == g
    ensures r.condCreated == (g.condCreated || !g.onceDone)
    ensures r.(onceDone := g.onceDone, condCreated := g.condCreated) == g
  {
    if g.onceDone then g
    else g.(onceDone := true, condCreated := true)
  }

  /** `Set(b)`: the flag becomes b. Only a real false-to-true swap creates
      the condition if needed and broadcasts, releasing every parked
      waiter; setting the value the flag has changes nothing. */
  function AfterSet(g: Gate, b: bool): (r: Gate)
    ensures r.ready == b
    ensures g.ready == b ==> r == g
    ensures r.broadcasts == if b && !g.ready then g.broadcasts + 1 else g.broadcasts
    ensures b && !g.ready ==> r.pending == {} && r.released == g.released + g.pending
    ensures b && !g.ready && Consistent(g) ==> r.condCreated
    ensures !b ==> r == g.(ready := false)
    ensures r.nextId == g.nextId
    ensures Consistent(g) ==> Consistent(r)
  {
    if g.ready == b then g
    else if !b then g.(ready := false)
    else
      var c := AfterEnsureCond(g.(ready := true));
      c.(broadcasts := c.broadcasts + 1, pending := {}, released := c.released + c.pending)
  }

  /** `WaitCh()`: a new channel, fired at once if the gate is ready;
      otherwise the condition is made available and the channel's
      goroutine parks until the next broadcast. */
  function AfterWaitCh(g: Gate): (r: (Gate, nat))
    ensures r.1 == g.nextId && r.0.nextId == g.nextId + 1
    ensures r.0.ready == g.ready && r.0.broadcasts == g.broadcasts
    ensures g.ready ==> r.0 == g.(released := g.released + {r.1}, nextId := g.nextId + 1)
    ensures !g.ready ==> r.0.pending == g.pending + {r.1} && r.0.released == g.released
    ensures !g.ready && Consistent(g) ==> r.0.condCreated
    ensures Consistent(g) ==> Consistent(r.0) && r.1 !in g.pending + g.released
  {
    var id := g.nextId;
    if g.ready then
      (g.(released := g.released + {id}, nextId := id + 1), id)
    else
      var c := AfterEnsureCond(g);
      (c.(pending := c.pending + {id}, nextId := id + 1), id)
  }

  /** n calls of `Set(b)` one after the other. */
  function SetTimes(g: Gate, b: bool, n: nat): Gate
    decreases n
  {
    if n == 0 then g else SetTimes(AfterSet(g, b), b, n - 1)
  }

  /** n calls of `WaitCh()` one after the other. */
  function WaitChTimes(g: Gate, n: nat): Gate
    decreases n
  {
    if n == 0 then g else WaitChTimes(AfterWaitCh(g).0, n - 1)
  }

  /** Any number of `Set(true)` calls broadcast at most once: only the first
      swaps the flag. */
  lemma {:induction false} SetTrueRepeatedlyBroadcastsOnce(g: Gate, n: nat)
    requires n >= 1
    ensures SetTimes(g, true, n) == AfterSet(g, true)
    ensures SetTimes(g, true, n).broadcasts == if g.ready then g.broadcasts else g.broadcasts + 1
    decreases n
  {
    if n > 1 {
      SetTrueRepeatedlyBroadcastsOnce(AfterSet(g, true), n - 1);
    }
  }

  /** Channels asked for while the gate is not ready all park. */
  lemma {:induction false} WaitChWhileNotReady(g: Gate, n: nat)
    requires !g.ready
    ensures var w := WaitChTimes(g, n);
      (forall id :: id in w.pending <==> id in g.pending || g.nextId <= id < g.nextId + n) &&
      w.released == g.released && w.nextId == g.nextId + n && !w.ready && w.broadcasts == g.broadcasts &&
      (Consistent(g) ==> Consistent(w))
    decreases n
  {
    if n > 0 {
      WaitChWhileNotReady(AfterWaitCh(g).0, n - 1);
    }
  }

  /** Channels asked for while the gate is ready all fire at once. */
  lemma {:induction false} WaitChWhileReady(g: Gate, n: nat)
    requires g.ready
    ensures var w := WaitChTimes(g, n);
      (forall id :: id in w.released <==> id in g.released || g.nextId <= id < g.nextId + n) &&
      w.pending == g.pending && w.nextId == g.nextId + n && w.ready && w.broadcasts == g.broadcasts
    decreases n
  {
    if n > 0 {
      WaitChWhileReady(AfterWaitCh(g).0, n - 1);
    }
  }

  /** Waiters that registered before the gate became ready and waiters that
      register after it all get notified, and however many times `Set(true)`
      is called the gate broadcasts once. */
  lemma WaitersBeforeAndAfterAllFire(g: Gate, before: nat, sets: nat, after: nat)
    requires Consistent(g) && !g.ready && sets >= 1
    ensures var w := WaitChTimes(SetTimes(WaitChTimes(g, before), true, sets), after);
      (forall id | g.nextId <= id < g.nextId + before + after :: id in w.released) &&
      w.broadcasts == g.broadcasts + 1 && w.ready
  {
    var w1 := WaitChTimes(g, before);
    WaitChWhileNotReady(g, before);
    SetTrueRepeatedlyBroadcastsOnce(w1, sets);
    var w2 := SetTimes(w1, true, sets);
    WaitChWhileReady(w2, after);
  }

  /** A waiter parked while the gate is not ready stays parked through
      `Set(false)` and fires at the next false-to-true `Set`. */
  lemma ParkedWaiterReleasedByNextRise(g: Gate)
    requires Consistent(g) && !g.ready
    ensures var (g1, id) := AfterWaitCh(g);
      var g2 := AfterSet(g1, false);
      var g3 := AfterSet(g2, true);
      id in g2.pending && id !in g2.released && id in g3.released && id !in g3.pending
  {
  }

  /** The gate can be re-armed: every false-to-true cycle broadcasts again. */
  lemma ReArmBroadcastsAgain(g: Gate)
    requires !g.ready
    ensures AfterSet(AfterSet(AfterSet(g, true), false), true).broadcasts == g.broadcasts + 2
  {
  }

  /** One launched run of the application raises the gate and resets it:
      exactly one broadcast, every waiter pending before the run is
      released, and the gate ends not ready. */
  lemma RiseAndResetReleasesEveryWaiter(g: Gate)
    requires Consistent(g) && !g.ready
    ensures var r := AfterSet(AfterSet(g, true), false);
      !r.ready && r.broadcasts == g.broadcasts + 1 && r.pending == {} &&
      r.released == g.released + g.pending && r.condCreated && Consistent(r)
  {
  }

  /** What `Wait` returns. `Parked` means the call blocks, with its channel
      pending, until a broadcast or the context ends it. */
  datatype WaitResult = Returned(err: Option<Error>) | Parked(channel: nat)

  /** The readiness gate as an object, updated in place. */
  class Waiter {
    var ready: bool
    var onceDone: bool
    var condCreated: bool
    var broadcasts: nat
    var pending: set<nat>
    var released: set<nat>
    var nextId: nat

    function State(): Gate
      reads this
    {
      Gate(ready, onceDone, condCreated, broadcasts, pending, released, nextId)
    }

    ghost predicate Valid()
      reads this
    {
      Consistent(State())
    }

    /** The zero value. */
    constructor ()
      ensures State() == ZeroGate() && Valid()
    {
      ready, onceDone, condCreated, broadcasts := false, false, false, 0;
      pending, released, nextId := {}, {}, 0;
    }

    /** `Is(b)`: whether the flag currently equals b. */
    function Is(b: bool): (r: bool)
      reads this
      ensures r <==> ready == b
    {
      ready == b
    }

    method EnsureCond()
      modifies this
      ensures State() == AfterEnsureCond(old(State()))
    {
      if !onceDone {
        onceDone := true;
        if !condCreated {
          condCreated := true;
        }
      }
    }

    /** Releases every parked waiter. */
    method Broadcast()
      modifies this
      ensures State() == old(State()).(broadcasts := old(broadcasts) + 1, pending := {}, released := old(released) + old(pending))
    {
      broadcasts := broadcasts + 1;
      released := released + pending;
      pending := {};
    }

    method Set(b: bool)
      requires Valid()
      modifies this
      ensures Valid()
      ensures State() == AfterSet(old(State()), b)
    {
      // CompareAndSwap(!b, b)
      var swapped := ready == !b;
      if swapped {
        ready := b;
      }
      if b && swapped {
        EnsureCond();
        Broadcast();
      }
    }

    method WaitCh() returns (ch: nat)
      requires Valid()
      modifies this
      ensures Valid()
      ensures (State(), ch) == AfterWaitCh(old(State()))
    {
      ch := nextId;
      nextId := nextId + 1;
      if ready {
        released := released + {ch};
        return;
      }
      EnsureCond();
      pending := pending + {ch};
    }

    /** `Wait(ctx)`, with the select run at `checkpoint` of `ctx`. When
      the channel has fired and the context is done too, Go's select picks
      either case; `preferReady` is that choice. */
    method Wait(ctx: Context, checkpoint: nat, preferReady: bool) returns (r: WaitResult)
      requires Valid()
      modifies this
      ensures Valid()
      ensures State() == AfterWaitCh(old(State())).0
      ensures old(ready) && (!DoneAt(ctx, checkpoint) || preferReady) ==> r == Returned(None)
      ensures old(ready) && DoneAt(ctx, checkpoint) && !preferReady ==> r == Returned(Some(ctx.cause))
      ensures !old(ready) && DoneAt(ctx, checkpoint) ==> r == Returned(Some(ctx.cause))
      ensures !old(ready) && !DoneAt(ctx, checkpoint) ==> r == Parked(old(nextId)) && old(nextId) in pending
    {
      var ch := WaitCh();
      var fired := ch in released;
      var ctxErr := ErrAt(ctx, checkpoint);
      if fired && (ctxErr.None? || preferReady) {
        r := Returned(None);
      } else if ctxErr.Some? {
        r := Returned(ctxErr);
      } else {
        r := Parked(ch);
      }
    }
  }
}
