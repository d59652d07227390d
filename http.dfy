/** http.go: the status-code query, the response classifier and the four
    status markers. */
module Http {
  import opened Errors
  import opened Chain
  import opened Retry
  import NetHttp

  /** The string switch of HTTPStatusCode: messages of well-known stdlib and
      storage errors, recognised without importing their packages. */
  function KnownMessageStatus(text: string): (r: Option<int>)
    ensures r == Some(403) <==> text == "permission denied"
    ensures r.Some? ==> r.value in {403, 404}
    ensures r.Some? ==> |text| > 0 && (text[0] == 'p' || text[0] == 'f' || text[0] == 's')
  {
    if text == "permission denied" then Some(403)
    else if text == "file does not exist" then Some(404)
    else if text == "storage: bucket doesn't exist" then Some(404)
    else if text == "storage: object doesn't exist" then Some(404)
    else if text == "sql: no rows in result set" then Some(404)
    else None
  }

  /** One step of the status walk: an HTTPStatusCodeEr answers first, then
      the message table. */
  function StatusStep(e: Err): Option<int>
  {
    match StatusCodeErAnswer(e)
    case Some(code) => Some(code)
    case None => KnownMessageStatus(ErrorText(e))
  }

  /** The status a handler should answer for `err`: 200 for nil, the first
      answer of the status walk, or 500 when nothing on the chain answers. */
  function ResolvedStatus(err: Option<Err>): int
  {
    match err
    case None => 200
    case Some(e) =>
      match FirstAnswer(StatusStep, e)
      case Some(code) => code
      case None => 500
  }

  method HTTPStatusCode(err: Option<Err>) returns (code: int)
    ensures code == ResolvedStatus(err)
  {
    if err.None? {
      return 200;
    }
    var cur := err;
    while cur.Some?
      invariant err.Some?
      invariant Answer(StatusStep, cur) == Answer(StatusStep, err)
      decreases Depth(cur)
    {
      var e := cur.value;
      match StatusCodeErAnswer(e) {
        case Some(status) => return status;
        case None =>
      }
      match KnownMessageStatus(ErrorText(e)) {
        case Some(status) => return status;
        case None =>
      }
      if !e.HasCause() {
        break;
      }
      cur := Cause(e);
    }
    return 500;
  }

  /** HTTPError classifies a response by its status code: no error below 300
      and for 304, otherwise an httpError carrying the code, retryable exactly
      for 500, 502, 503, 504 and 429, whose message is the reason phrase
      ("Too Many Requests" for 429) and which has no cause. */
  function HTTPError(statusCode: int): (r: Option<Err>)
    ensures r.None? <==> statusCode < 300 || statusCode == 304
    ensures r.Some? ==> ResolvedStatus(r) == statusCode && StatusCodeAnswer(r.value) == Some(statusCode)
    ensures r.Some? ==> RetryVerdict(r) == Some(statusCode in {500, 502, 503, 504, 429})
    ensures r.Some? ==> ErrorText(r.value) == if statusCode == 429 then "Too Many Requests" else NetHttp.StatusText(statusCode)
    ensures r.Some? ==> Cause(r.value).None?
  {
    if statusCode < 300 || statusCode == 304 then None else Some(Http(statusCode))
  }

  /** NotFoundError marks an error as "not found"; nil stays nil. The marker
      keeps the message and the cause, resolves to 404 and leaves the retry
      verdict to its cause. */
  function NotFoundError(err: Option<Err>): (r: Option<Err>)
    ensures r.None? <==> err.None?
    ensures r.Some? ==> ErrorText(r.value) == ErrorText(err.value) && Cause(r.value) == err
    ensures r.Some? ==> ResolvedStatus(r) == 404 && IsRetryableMethodAnswer(r.value) == Some(false)
    ensures RetryVerdict(r) == RetryVerdict(err)
  {
    match err
    case None => None
    case Some(e) => Some(NotFound(e))
  }

  /** ForbiddenError: as NotFoundError, with 403. */
  function ForbiddenError(err: Option<Err>): (r: Option<Err>)
    ensures r.None? <==> err.None?
    ensures r.Some? ==> ErrorText(r.value) == ErrorText(err.value) && Cause(r.value) == err
    ensures r.Some? ==> ResolvedStatus(r) == 403 && IsRetryableMethodAnswer(r.value) == Some(false)
    ensures RetryVerdict(r) == RetryVerdict(err)
  {
    match err
    case None => None
    case Some(e) => Some(Forbidden(e))
  }

  /** InvalidError: as NotFoundError, with 400. */
  function InvalidError(err: Option<Err>): (r: Option<Err>)
    ensures r.None? <==> err.None?
    ensures r.Some? ==> ErrorText(r.value) == ErrorText(err.value) && Cause(r.value) == err
    ensures r.Some? ==> ResolvedStatus(r) == 400 && IsRetryableMethodAnswer(r.value) == Some(false)
    ensures RetryVerdict(r) == RetryVerdict(err)
  {
    match err
    case None => None
    case Some(e) => Some(Invalid(e))
  }

  /** ConflictError: as NotFoundError, with 409. */
  function ConflictError(err: Option<Err>): (r: Option<Err>)
    ensures r.None? <==> err.None?
    ensures r.Some? ==> ErrorText(r.value) == ErrorText(err.value) && Cause(r.value) == err
    ensures r.Some? ==> ResolvedStatus(r) == 409 && IsRetryableMethodAnswer(r.value) == Some(false)
    ensures RetryVerdict(r) == RetryVerdict(err)
  {
    match err
    case None => None
    case Some(e) => Some(Conflict(e))
  }

  /** The status walk returns `code` exactly when the first value of the chain
      that is an HTTPStatusCodeEr or carries a known message gives `code`,
      or when `code` is 500 and no value of the chain answers at all. */
  lemma FirstStatusDecides(e: Err, code: int)
    ensures ResolvedStatus(Some(e)) == code <==>
      (exists i :: AnsweredFirstAt(StatusStep, Walk(e), i, code)) ||
      (code == 500 && Silent(StatusStep, Walk(e)))
  {
    FirstAnswerIsFirstOnWalk(StatusStep, e, code);
    NoAnswerOnWalk(StatusStep, e);
  }

  /** With no HTTPStatusCodeEr and no known message on the chain the status
      is 500. */
  lemma UnknownIsInternal(e: Err)
    requires forall i :: 0 <= i < |Walk(e)| ==> StatusStep(Walk(e)[i]).None?
    ensures ResolvedStatus(Some(e)) == 500
  {
    NoAnswerOnWalk(StatusStep, e);
  }

  /** No reason phrase, nor the 429 message, is one of the known messages. */
  lemma HttpMessageIsNotKnown(code: int)
    ensures KnownMessageStatus(ErrorText(Http(code))).None?
  {
  }

  /** A message that starts with a prefix not beginning with 'p', 'f' or 's'
      cannot be one of the known messages. */
  lemma PrefixedMessageIsNotKnown(prefix: string, text: string)
    requires |prefix| > 0 && prefix[0] != 'p' && prefix[0] != 'f' && prefix[0] != 's'
    ensures KnownMessageStatus(prefix + ": " + text).None?
  {
    assert (prefix + ": " + text)[0] == prefix[0];
  }

  /** A pkg/errors-style wrapper is transparent to the status walk, unless
      its own message happens to be a known one. */
  lemma WrapKeepsStatus(e: Err, message: string)
    requires KnownMessageStatus(message + ": " + ErrorText(e)).None?
    ensures ResolvedStatus(Wrap(Some(e), message)) == ResolvedStatus(Some(e))
  {
  }

  /** The markers and httpError keep their status under a wrapper such as
      `Wrap(_, "bar")`. */
  lemma WrappedStatuses(e: Err, message: string, code: int)
    requires |message| > 0 && message[0] != 'p' && message[0] != 'f' && message[0] != 's'
    requires code >= 300 && code != 304
    ensures ResolvedStatus(Wrap(NotFoundError(Some(e)), message)) == 404
    ensures ResolvedStatus(Wrap(ForbiddenError(Some(e)), message)) == 403
    ensures ResolvedStatus(Wrap(InvalidError(Some(e)), message)) == 400
    ensures ResolvedStatus(Wrap(ConflictError(Some(e)), message)) == 409
    ensures ResolvedStatus(Wrap(HTTPError(code), message)) == code
  {
    PrefixedMessageIsNotKnown(message, ErrorText(e));
    PrefixedMessageIsNotKnown(message, ErrorText(Http(code)));
    WrapKeepsStatus(NotFound(e), message);
    WrapKeepsStatus(Forbidden(e), message);
    WrapKeepsStatus(Invalid(e), message);
    WrapKeepsStatus(Conflict(e), message);
    WrapKeepsStatus(Http(code), message);
  }

  /** The retryable marker answers 500 itself, shadowing any status deeper in
      the chain: a not-found error that is marked retryable resolves to 500. */
  lemma RetryableShadowsStatus(e: Err)
    ensures ResolvedStatus(RetryableError(Some(e))) == 500
    ensures ResolvedStatus(RetryableError(NotFoundError(Some(e)))) == 500
  {
  }

  /** The markers define `IsRetryable()`, not `Retryable()`: the retry
      queries do not see them, so a not-found marker around a retryable error
      is retryable although its own `IsRetryable()` says false. */
  lemma MarkersAreNotRetryablers(e: Err)
    ensures IsRetryableMethodAnswer(NotFound(Retryable(e))) == Some(false)
    ensures RetryVerdict(NotFoundError(RetryableError(Some(e)))) == Some(true)
    ensures RetryVerdict(ForbiddenError(RetryableError(Some(e)))) == Some(true)
    ensures RetryVerdict(InvalidError(RetryableError(Some(e)))) == Some(true)
    ensures RetryVerdict(ConflictError(RetryableError(Some(e)))) == Some(true)
  {
  }
}
