/** Error values as the supervisor handles them: sentinels made with
    `errors.New`, the two context errors, `errors.Wrapf` from pkg/errors
    and aggregates made with the standard `errors.Join`. A Go `error` that
    may be nil is an `Option<Error>`. */
module Errors {

  datatype Option<+T> = None | Some(value: T)

  /** An error value. `Sentinel`, `Wrapped` and `Joined` carry an identity,
      the allocation that made them: `errors.New`, `errors.Wrapf` and
      `errors.Join` each return a new pointer, and `errors.Is` compares
      pointers, so two such errors built from the same parts are still two
      different errors. The two context errors are package variables. */
  datatype Error =
    | Sentinel(id: nat, text: string)
    | Canceled
    | DeadlineExceeded
    | Wrapped(id: nat, context: string, cause: Error)
    | Joined(id: nat, errs: seq<Error>)

  /** The text of `err.Error()`. */
  function Message(e: Error): (r: string)
    // a joined error with one member prints just that member
    ensures e.Joined? && |e.errs| == 1 ==> r == Message(e.errs[0])
  {
    match e
    case Sentinel(_, text) => text
    case Canceled => "context canceled"
    case DeadlineExceeded => "context deadline exceeded"
    case Wrapped(_, context, cause) => context + ": " + Message(cause)
    case Joined(_, es) => JoinLines(seq(|es|, i requires 0 <= i < |es| => Message(es[i])))
  }

  /** The lines joined with a newline between each two, as a joined error
      prints its members. */
  function JoinLines(lines: seq<string>): string
  {
    if |lines| == 0 then ""
    else if |lines| == 1 then lines[0]
    else JoinLines(lines[..|lines| - 1]) + "\n" + lines[|lines| - 1]
  }

  /** `errors.Is(e, target)`: `target` is `e` itself or is found on `e`'s
      unwrap chain, through every member of a joined error. */
  predicate Is(e: Error, target: Error): (r: bool)
    // every error matches itself
    ensures e == target ==> r
    // an error with nothing to unwrap matches only itself
    ensures !e.Wrapped? && !e.Joined? ==> (r <==> e == target)
  {
    e == target ||
    match e
    case Wrapped(_, _, cause) => Is(cause, target)
    case Joined(_, es) => exists i | 0 <= i < |es| :: Is(es[i], target)
    case _ => false
  }

  /** `errors.Wrapf(cause, context)`, allocated as `id`: a new error whose
      text is prefixed with `context`, that still matches everything `cause`
      matches, and that `cause` does not match. */
  function Wrap(cause: Error, context: string, id: nat): (r: Error)
    ensures Message(r) == context + ": " + Message(cause)
    ensures forall t :: Is(cause, t) ==> Is(r, t)
    ensures r != cause && !Is(cause, r)
  {
    var r := Wrapped(id, context, cause);
    IsBoundsDepth(cause, r);
    r
  }

  /** How deeply an error nests wraps and joins. */
  function Depth(e: Error): nat
  {
    match e
    case Wrapped(_, _, cause) => 1 + Depth(cause)
    case Joined(_, es) => 1 + MaxOf(seq(|es|, i requires 0 <= i < |es| => Depth(es[i])))
    case _ => 0
  }

  function MaxOf(s: seq<nat>): (m: nat)
    ensures forall i | 0 <= i < |s| :: s[i] <= m
  {
    if |s| == 0 then 0
    else
      var rest := MaxOf(s[1..]);
      assert forall i | 1 <= i < |s| :: s[i] == s[1..][i - 1];
      if s[0] > rest then s[0] else rest
  }

  /** An error only matches errors found inside it, so never a deeper one. */
  lemma {:induction false} IsBoundsDepth(e: Error, target: Error)
    ensures Is(e, target) ==> Depth(target) <= Depth(e)
  {
    if Is(e, target) && e != target {
      match e
      case Wrapped(_, _, cause) => IsBoundsDepth(cause, target);
      case Joined(_, es) =>
        var i :| 0 <= i < |es| && Is(es[i], target);
        IsBoundsDepth(es[i], target);
        var depths := seq(|es|, i requires 0 <= i < |es| => Depth(es[i]));
        assert depths[i] == Depth(es[i]);
    }
  }

  /** Two wraps of the same cause with the same text, made by two calls,
      do not match each other. */
  lemma SeparateWrapsDoNotMatch(cause: Error, context: string, id1: nat, id2: nat)
    requires id1 != id2
    ensures Message(Wrap(cause, context, id1)) == Message(Wrap(cause, context, id2))
    ensures !Is(Wrap(cause, context, id1), Wrap(cause, context, id2))
  {
    IsBoundsDepth(cause, Wrap(cause, context, id2));
  }

  /** `errors.Join(a, b)` for two possibly nil errors, allocated as `id`:
      nil when both are nil, otherwise a joined error of the non-nil ones,
      in order. */
  function Join(a: Option<Error>, b: Option<Error>, id: nat): (r: Option<Error>)
    ensures r.None? <==> a.None? && b.None?
    ensures a.Some? ==> r.Some? && Is(r.value, a.value)
    ensures b.Some? ==> r.Some? && Is(r.value, b.value)
    ensures a.Some? && b.Some? ==> Message(r.value) == Message(a.value) + "\n" + Message(b.value)
    ensures a.None? && b.Some? ==> Message(r.value) == Message(b.value)
    ensures a.Some? && b.None? ==> Message(r.value) == Message(a.value)
  {
    match (a, b)
    case (None, None) => None
    case (Some(x), None) => JoinedMessage1(x, id); Some(Joined(id, [x]))
    case (None, Some(y)) => JoinedMessage1(y, id); Some(Joined(id, [y]))
    case (Some(x), Some(y)) =>
      JoinedMessage2(x, y, id);
      assert Joined(id, [x, y]).errs[0] == x && Joined(id, [x, y]).errs[1] == y;
      Some(Joined(id, [x, y]))
  }

  lemma JoinedMessage1(x: Error, id: nat)
    ensures Message(Joined(id, [x])) == Message(x)
  {
    assert seq(1, i requires 0 <= i < 1 => Message([x][i])) == [Message(x)];
  }

  lemma JoinedMessage2(x: Error, y: Error, id: nat)
    ensures Message(Joined(id, [x, y])) == Message(x) + "\n" + Message(y)
  {
    var lines := seq(2, i requires 0 <= i < 2 => Message([x, y][i]));
    assert lines == [Message(x), Message(y)];
    assert lines[..1] == [Message(x)];
    assert JoinLines(lines) == JoinLines([Message(x)]) + "\n" + Message(y);
    assert Message(Joined(id, [x, y])) == JoinLines(lines);
  }

  /** Wrapping any number of times keeps the identity of the cause. */
  lemma {:induction false} IsTransitive(e: Error, middle: Error, target: Error)
    requires Is(e, middle) && Is(middle, target)
    ensures Is(e, target)
  {
    if e != middle {
      match e
      case Wrapped(_, _, cause) => IsTransitive(cause, middle, target);
      case Joined(_, es) =>
        var i :| 0 <= i < |es| && Is(es[i], middle);
        IsTransitive(es[i], middle, target);
    }
  }
}
