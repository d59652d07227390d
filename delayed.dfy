/** delayed.go: the Delayer query and the delay wrapper. Durations are
    nanosecond counts; nothing computes with them. */
module Delays {
  import opened Errors
  import opened Chain
  import opened Retry
  import opened Http

  /** The duration of the first Delayer on the cause chain of `err`, 0 when
      `err` is nil or no value of its chain implements `Delay()`. */
  function ResolvedDelay(err: Option<Err>): int
  {
    match Answer(DelayerAnswer, err)
    case Some(duration) => duration
    case None => 0
  }

  method Delay(err: Option<Err>) returns (duration: int)
    ensures duration == ResolvedDelay(err)
  {
    var cur := err;
    while cur.Some?
      invariant Answer(DelayerAnswer, cur) == Answer(DelayerAnswer, err)
      decreases Depth(cur)
    {
      var e := cur.value;
      match DelayerAnswer(e) {
        case Some(d) => return d;
        case None =>
      }
      if !e.HasCause() {
        break;
      }
      cur := Cause(e);
    }
    return 0;
  }

  /** WithDelay attaches a duration to an error; nil stays nil, whatever the
      duration. The wrapper keeps the message, has the error as its cause,
      resolves to exactly the given duration (zero and negative durations
      included) and leaves the retry verdict to its cause. */
  function WithDelay(err: Option<Err>, duration: int): (r: Option<Err>)
    ensures r.None? <==> err.None?
    ensures r.Some? ==> ErrorText(r.value) == ErrorText(err.value) && Cause(r.value) == err
    ensures r.Some? ==> ResolvedDelay(r) == duration
    ensures RetryVerdict(r) == RetryVerdict(err)
  {
    match err
    case None => None
    case Some(e) => Some(Delayed(e, duration))
  }

  /** NewDelayedError builds a fresh error with the given message and wraps it
      with the given duration. */
  function NewDelayedError(text: string, duration: int): (r: Option<Err>)
    ensures r.Some? && ErrorText(r.value) == text && ResolvedDelay(r) == duration
    ensures Cause(r.value) == Some(Base(text)) && RetryVerdict(r).None?
  {
    WithDelay(Some(Base(text)), duration)
  }

  /** The first Delayer of the chain decides; an outer WithDelay shadows an
      inner one. */
  lemma FirstDelayerDecides(e: Err, duration: int)
    ensures ResolvedDelay(Some(e)) == duration <==>
      (exists i :: AnsweredFirstAt(DelayerAnswer, Walk(e), i, duration)) ||
      (duration == 0 && Silent(DelayerAnswer, Walk(e)))
  {
    FirstAnswerIsFirstOnWalk(DelayerAnswer, e, duration);
    NoAnswerOnWalk(DelayerAnswer, e);
  }

  /** An outer delay shadows an inner one. */
  lemma OuterDelayWins(e: Err, inner: int, outer: int)
    ensures ResolvedDelay(WithDelay(WithDelay(Some(e), inner), outer)) == outer
  {
  }

  /** The retryable marker, the status markers and pkg/errors wrappers are
      walked through by the delay query. */
  lemma MarkersKeepDelay(err: Option<Err>, message: string)
    ensures ResolvedDelay(RetryableError(err)) == ResolvedDelay(err)
    ensures ResolvedDelay(NotFoundError(err)) == ResolvedDelay(err)
    ensures ResolvedDelay(ForbiddenError(err)) == ResolvedDelay(err)
    ensures ResolvedDelay(InvalidError(err)) == ResolvedDelay(err)
    ensures ResolvedDelay(ConflictError(err)) == ResolvedDelay(err)
    ensures ResolvedDelay(Wrap(err, message)) == ResolvedDelay(err)
  {
  }

  /** The status walk passes through a delay wrapper to its cause, except
      when the cause is an HTTPStatusCodeEr whose message is a known one: the
      wrapper, which is no HTTPStatusCodeEr, is checked against the message
      table first. */
  lemma DelayKeepsStatus(e: Err, duration: int)
    requires StatusCodeErAnswer(e).None? || KnownMessageStatus(ErrorText(e)).None?
    ensures ResolvedStatus(WithDelay(Some(e), duration)) == ResolvedStatus(Some(e))
  {
  }

  /** The exception of DelayKeepsStatus does occur: a not-found error whose
      message is "permission denied" resolves to 404, and to 403 once delayed. */
  lemma DelayCanUnmaskMessage(duration: int)
    ensures ResolvedStatus(NotFoundError(Some(Base("permission denied")))) == 404
    ensures ResolvedStatus(WithDelay(NotFoundError(Some(Base("permission denied"))), duration)) == 403
  {
  }

  /** httpError and its retry verdict are seen through a delay wrapper. */
  lemma DelayedHttpError(code: int, duration: int)
    requires code >= 300 && code != 304
    ensures ResolvedStatus(WithDelay(HTTPError(code), duration)) == code
    ensures RetryVerdict(WithDelay(HTTPError(code), duration)) == Some(IsRetryableStatus(code))
  {
    HttpMessageIsNotKnown(code);
    DelayKeepsStatus(Http(code), duration);
  }
}
