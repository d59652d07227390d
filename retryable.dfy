/** retryable.go: the Retryabler queries and the retryable marker. */
module Retry {
  import opened Errors
  import opened Chain

  /** What the first Retryabler on the cause chain of `err` answers; `None`
      when `err` is nil or no value of its chain implements `Retryable()`. */
  function RetryVerdict(err: Option<Err>): Option<bool>
  {
    Answer(RetryableAnswer, err)
  }

  /** IsRetryable walks the chain and returns the first Retryabler's answer,
      false when there is none. */
  method IsRetryable(err: Option<Err>) returns (r: bool)
    ensures r <==> RetryVerdict(err) == Some(true)
  {
    var cur := err;
    while cur.Some?
      invariant Answer(RetryableAnswer, cur) == Answer(RetryableAnswer, err)
      decreases Depth(cur)
    {
      var e := cur.value;
      match RetryableAnswer(e) {
        case Some(answer) => return answer;
        case None =>
      }
      if !e.HasCause() {
        break;
      }
      cur := Cause(e);
    }
    return false;
  }

  /** IsNotRetryable walks the same chain and returns the negation of the
      first Retryabler's answer, false when there is none. */
  method IsNotRetryable(err: Option<Err>) returns (r: bool)
    ensures r <==> RetryVerdict(err) == Some(false)
  {
    var cur := err;
    while cur.Some?
      invariant Answer(RetryableAnswer, cur) == Answer(RetryableAnswer, err)
      decreases Depth(cur)
    {
      var e := cur.value;
      match RetryableAnswer(e) {
        case Some(answer) => return !answer;
        case None =>
      }
      if !e.HasCause() {
        break;
      }
      cur := Cause(e);
    }
    return false;
  }

  /** RetryableError marks an error as retryable; nil stays nil. The marker
      keeps the message, has the error as its cause, answers `Retryable()`
      with true and `HTTPStatusCode()` with 500. */
  function RetryableError(err: Option<Err>): (r: Option<Err>)
    ensures r.None? <==> err.None?
    ensures r.Some? ==> ErrorText(r.value) == ErrorText(err.value) && Cause(r.value) == err
    ensures r.Some? ==> RetryVerdict(r) == Some(true)
    ensures r.Some? ==> StatusCodeErAnswer(r.value) == Some(500)
  {
    match err
    case None => None
    case Some(e) => Some(Retryable(e))
  }

  /** The first Retryabler of the chain decides: the verdict is `b` exactly
      when some value of the chain answers `b` and no value before it answers
      at all. Values without `Retryable()` but with a cause (pkg/errors
      wrappers, delays, the status markers) are walked through. */
  lemma FirstRetryablerDecides(e: Err, b: bool)
    ensures RetryVerdict(Some(e)) == Some(b) <==>
      exists i :: AnsweredFirstAt(RetryableAnswer, Walk(e), i, b)
  {
    FirstAnswerIsFirstOnWalk(RetryableAnswer, e, b);
  }

  /** Without any Retryabler on the chain both queries have no verdict, so
      IsRetryable and IsNotRetryable are both false; and conversely. */
  lemma UnclassifiedIsNeither(e: Err)
    ensures RetryVerdict(Some(e)).None? <==>
      forall i :: 0 <= i < |Walk(e)| ==> RetryableAnswer(Walk(e)[i]).None?
  {
    NoAnswerOnWalk(RetryableAnswer, e);
  }

  /** The `retryable` test type answers with its own value and has no cause. */
  lemma FlagAnswersItself(b: bool)
    ensures RetryVerdict(Some(Flag(b))) == Some(b)
    ensures Cause(Flag(b)).None?
  {
  }

  /** pkg/errors-style wrappers are transparent to the retry queries. */
  lemma WrapKeepsVerdict(err: Option<Err>, message: string)
    ensures RetryVerdict(Wrap(err, message)) == RetryVerdict(err)
  {
  }
}
