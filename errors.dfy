/** Go error values as they occur in errorutil.

    Go's `error` is an open interface and errorutil discovers what a value can
    do with runtime type assertions (`err.(Retryabler)`, `err.(causer)`, ...).
    Here the family of values is closed: one variant per concrete error type
    the package builds or its tests use, and one function per Go method that
    answers `None` for the variants whose Go type lacks that method. Go's `nil`
    error is `None` of `Option<Err>`. Every wrapper owns exactly one inner
    error, so cause chains are finite and acyclic by construction. */
module Errors {
  import NetHttp

  datatype Option<+T> = None | Some(value: T)

  datatype Err =
    | Base(text: string)                  // errors.New, pkg/errors.New and the stdlib sentinels
    | Retryable(inner: Err)               // *retryableError
    | NotFound(inner: Err)                // *notFoundError
    | Forbidden(inner: Err)               // *forbiddenError
    | Invalid(inner: Err)                 // *invalidError
    | Conflict(inner: Err)                // *conflictError
    | Delayed(inner: Err, duration: int)  // *delayedError; duration in nanoseconds
    | Http(code: int)                     // httpError
    | Foreign(prefix: string, inner: Err) // a pkg/errors-style Wrap: message and Cause
    | Flag(answer: bool)                  // the test type `retryable bool`
  {
    /** The Go type has a `Cause() error` method. */
    predicate HasCause()
    {
      !(Base? || Http? || Flag?)
    }
  }

  /** The `Cause()` method, `None` where the type has none. */
  function Cause(e: Err): (c: Option<Err>)
    ensures c.Some? <==> e.HasCause()
  {
    if e.HasCause() then Some(e.inner) else None
  }

  /** The retryable-list of httpError.Retryable: 502, 504, 503, 500 and 429. */
  predicate IsRetryableStatus(code: int)
  {
    code == 502 || code == 504 || code == 503 || code == 500 || code == 429
  }

  /** The innermost value of the cause chain of `e`. */
  function Root(e: Err): Err
  {
    if e.HasCause() then Root(e.inner) else e
  }

  /** No pkg/errors-style wrapper occurs on the cause chain of `e`. */
  predicate NoForeign(e: Err)
  {
    !e.Foreign? && (e.HasCause() ==> NoForeign(e.inner))
  }

  /** The `Error()` method. Every wrapper of the package reads as its cause,
      so a chain rooted in a plain error and without a pkg/errors-style
      wrapper reads as that error; a pkg/errors-style wrapper puts its
      prefix and ": " in front. */
  function ErrorText(e: Err): (r: string)
    ensures Root(e).Base? && NoForeign(e) ==> r == Root(e).text
    ensures e.Foreign? ==> |r| >= |e.prefix| + 2 && r[..|e.prefix| + 2] == e.prefix + ": "
  {
    match e
    case Base(text) => text
    case Retryable(inner) => ErrorText(inner)
    case NotFound(inner) => ErrorText(inner)
    case Forbidden(inner) => ErrorText(inner)
    case Invalid(inner) => ErrorText(inner)
    case Conflict(inner) => ErrorText(inner)
    case Delayed(inner, _) => ErrorText(inner)
    case Http(code) => if code == 429 then "Too Many Requests" else NetHttp.StatusText(code)
    case Foreign(prefix, inner) => prefix + ": " + ErrorText(inner)
    case Flag(answer) => if answer then "true" else "false"
  }

  /** Wrapping never alters the displayed text: without a pkg/errors-style
      wrapper on the chain, an error reads as the root of its chain. */
  lemma {:induction false} WrappingKeepsText(e: Err)
    requires NoForeign(e)
    ensures ErrorText(e) == ErrorText(Root(e))
  {
    if e.HasCause() {
      WrappingKeepsText(e.inner);
    }
  }

  /** The `Retryable() bool` method, i.e. the Retryabler interface. */
  function RetryableAnswer(e: Err): (r: Option<bool>)
    ensures r.Some? <==> e.Retryable? || e.Http? || e.Flag?
    ensures e.Retryable? ==> r == Some(true)
    ensures e.Http? ==> (r == Some(true) <==> e.code in {500, 502, 503, 504, 429})
    ensures e.Flag? ==> r == Some(e.answer)
  {
    match e
    case Retryable(_) => Some(true)
    case Http(code) => Some(IsRetryableStatus(code))
    case Flag(answer) => Some(answer)
    case _ => None
  }

  /** The `HTTPStatusCode() int` method, i.e. the HTTPStatusCodeEr interface. */
  function StatusCodeErAnswer(e: Err): (r: Option<int>)
    ensures r.Some? <==> e.Retryable? || e.NotFound? || e.Forbidden? || e.Invalid? || e.Conflict? || e.Http?
    ensures r.Some? && !e.Http? ==> r.value in {400, 403, 404, 409, 500}
    ensures e.Http? ==> r == Some(e.code)
  {
    match e
    case Retryable(_) => Some(500)
    case NotFound(_) => Some(404)
    case Forbidden(_) => Some(403)
    case Invalid(_) => Some(400)
    case Conflict(_) => Some(409)
    case Http(code) => Some(code)
    case _ => None
  }

  /** The `StatusCode() int` method, which only httpError has. */
  function StatusCodeAnswer(e: Err): (r: Option<int>)
    ensures r.Some? <==> e.Http?
    ensures r.Some? ==> StatusCodeErAnswer(e) == r
  {
    match e
    case Http(code) => Some(code)
    case _ => None
  }

  /** The `IsRetryable() bool` method of the four status markers. No query of
      the package asks for it: it is not `Retryable()`. */
  function IsRetryableMethodAnswer(e: Err): (r: Option<bool>)
    ensures r.Some? <==> e.NotFound? || e.Forbidden? || e.Invalid? || e.Conflict?
    ensures r.Some? ==> r == Some(false) && RetryableAnswer(e).None? && StatusCodeErAnswer(e).Some?
  {
    match e
    case NotFound(_) => Some(false)
    case Forbidden(_) => Some(false)
    case Invalid(_) => Some(false)
    case Conflict(_) => Some(false)
    case _ => None
  }

  /** The `Delay() time.Duration` method, i.e. the Delayer interface. */
  function DelayerAnswer(e: Err): (r: Option<int>)
    ensures r.Some? <==> e.Delayed?
    ensures r.Some? ==> r == Some(e.duration)
    ensures r.Some? ==> RetryableAnswer(e).None? && StatusCodeErAnswer(e).None?
  {
    match e
    case Delayed(_, duration) => Some(duration)
    case _ => None
  }

  /** A pkg/errors-style `Wrap(err, message)`: nil stays nil, otherwise the
      message is prefixed and the wrapped error is the cause. */
  function Wrap(err: Option<Err>, message: string): (r: Option<Err>)
    ensures r.None? <==> err.None?
    ensures r.Some? ==> ErrorText(r.value) == message + ": " + ErrorText(err.value)
    ensures r.Some? ==> Cause(r.value) == err
    ensures r.Some? ==> RetryableAnswer(r.value).None? && StatusCodeErAnswer(r.value).None?
    ensures r.Some? ==> DelayerAnswer(r.value).None?
  {
    match err
    case None => None
    case Some(e) => Some(Foreign(message, e))
  }
}
