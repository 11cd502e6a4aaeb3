/** A `context.Context` as an oracle. The supervisor never cancels a
    context by itself in this model; it only observes, at numbered
    checkpoints, whether the context is done and with which error. */
module Contexts {
  import opened Errors

  /** `doneAt` is the first checkpoint at which `ctx.Done()` is seen
      closed (a context stays done once it is done); `cause` is what
      `ctx.Err()` returns from then on. The retry loop numbers its
      checkpoints: 2k is the backoff decision after attempt k, 2k + 1 the
      sleep that follows it. */
  datatype Context = Context(doneAt: Option<nat>, cause: ContextError)

  /** What `ctx.Err()` can report: the context was cancelled or its
      deadline passed. */
  type ContextError = e: Error | e == Canceled || e == DeadlineExceeded witness Canceled

  predicate DoneAt(ctx: Context, checkpoint: nat)
  {
    ctx.doneAt.Some? && ctx.doneAt.value <= checkpoint
  }

  /** `ctx.Err()` at a checkpoint: nil while the context is live. */
  function ErrAt(ctx: Context, checkpoint: nat): (r: Option<Error>)
    ensures r.Some? <==> DoneAt(ctx, checkpoint)
    ensures r.Some? ==> r.value == ctx.cause
  {
    if DoneAt(ctx, checkpoint) then Some(ctx.cause) else None
  }

  /** A context that is never done, like `context.Background()`. */
  function Background(): (ctx: Context)
    ensures forall c: nat :: !DoneAt(ctx, c)
  {
    Context(None, Canceled)
  }

  /** A context cancelled before it is first looked at. */
  function Cancelled(): (ctx: Context)
    ensures forall c: nat :: DoneAt(ctx, c) && ErrAt(ctx, c) == Some(Canceled)
  {
    Context(Some(0), Canceled)
  }
}
