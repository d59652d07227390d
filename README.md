# errorutil: error classification by cause-chain walk

A model of the Go package `errorutil`. The package attaches capabilities to
errors by wrapping them, and answers three questions about any error by
walking its `Cause()` chain:

- is it retryable?
- what delay goes with it?
- what HTTP status should a handler answer?

It also turns an HTTP response status into an error (`HTTPError`).

## Structure

- `nethttp.dfy` (module `NetHttp`): the reason phrases of Go's
  `net/http.StatusText`, the only part of net/http that the package uses.
- `errors.dfy` (module `Errors`): the error values. `Err` is a closed datatype
  with one variant per concrete Go error type:
  - `Base`: `errors.New` and the stdlib sentinels;
  - `Retryable`, `NotFound`, `Forbidden`, `Invalid` and `Conflict`: the markers;
  - `Delayed`: the delay wrapper;
  - `Http`: `httpError`;
  - `Foreign`: a pkg/errors-style wrapper;
  - `Flag`: the test type `retryable`.

  Each optional Go method is a function that answers `None` for variants
  whose type lacks that method (`RetryableAnswer`, `StatusCodeErAnswer`,
  `DelayerAnswer`, `StatusCodeAnswer`, `IsRetryableMethodAnswer`, `Cause`).
  `Error()`, which every Go error has, is `ErrorText`, defined for every
  variant. Go's `nil` error is `None` of `Option<Err>`.
- `chain.dfy` (module `Chain`): the walk shared by the queries.
  - `FirstAnswer(ask, e)` returns the answer of the first value that answers `ask`.
  - `Walk(e)` is the chain as a sequence and serves as the reference definition.
  - Two lemmas prove that `FirstAnswer` returns exactly what the first answering
    element of `Walk(e)` says.
- `retryable.dfy`, `http.dfy`, `delayed.dfy`: one module per Go file.
  - The Go queries are `for err != nil { … err = cause.Cause() }` loops. Each
    one is a method with a `while` loop, proved equal to a specification
    function: `RetryVerdict`, `ResolvedStatus` or `ResolvedDelay`.
  - The constructors are functions. Their contracts state the message, the
    cause and what each query resolves to.
- `tables.dfy` (module `TestTables`): the rows of the repository's
  table-driven tests, stated as lemmas.

## Code and documentation

Where the documentation and the code differ, the model follows the code:

- The four status markers define `IsRetryable()`, not `Retryable()`
  (http.go:115, 144, 173, 202). They therefore do not implement `Retryabler`.
  The retry queries walk through them to their cause, so
  `NotFoundError(RetryableError(e))` is retryable (`Http.MarkersAreNotRetryablers`).
- `retryableError` answers `HTTPStatusCode()` with 500 (retryable.go:72-74).
  It therefore hides any status deeper in the chain (`Http.RetryableShadowsStatus`).
- The comment of `Delay` (delayed.go:14) says that a non-positive delay gives 0.
  The code returns the stored duration unchanged (delayed.go:55-57), and so
  does the model (`Delays.WithDelay`).
- `HTTPStatusCode` checks the message table at every step of the chain, not
  only at the end (http.go:33-46). A delay wrapper is not an
  `HTTPStatusCodeEr`, so its message is checked before the status of its
  cause. As a result, `WithDelay(NotFoundError(errors.New("permission denied")), d)`
  resolves to 403, not 404 (`Delays.DelayCanUnmaskMessage`).

## Model

| member | source | states |
|---|---|---|
| Errors.ErrorText | retryable.go:64-66 | the `Error()` methods (also http.go lines 67-74 and delayed.go lines 51-53): a chain rooted in a plain error with no pkg/errors-style wrapper reads as that error; a pkg/errors-style wrapper starts with its prefix and ": " |
| Errors.WrappingKeepsText | retryable.go:64-66 | wrapping with the package's markers and delays never alters the text: such a chain reads as its root, whatever the root is |
| Errors.RetryableAnswer | retryable.go:68-70 | the `Retryable()` methods (also http.go lines 83-92 and retryable_test.go lines 18-20): exactly retryableError, httpError and the test type implement `Retryabler`; the marker says true, httpError says true exactly for 500, 502, 503, 504 and 429, the test type says its own value |
| Errors.StatusCodeErAnswer | retryable.go:72-74 | the `HTTPStatusCode()` methods (also http.go lines 76-78, 111-113, 140-142, 169-171 and 198-200): exactly the retryable marker, the four status markers and httpError implement `HTTPStatusCodeEr`; httpError answers its own code, the others one of 400, 403, 404, 409 and 500 |
| Errors.StatusCodeAnswer | http.go:80-82 | only httpError has `StatusCode()`, and it agrees with its `HTTPStatusCode()` |
| Errors.IsRetryableMethodAnswer | http.go:115-117 | exactly the four status markers have `IsRetryable()`; it says false, and these types have `HTTPStatusCode()` but not `Retryable()` |
| Errors.DelayerAnswer | delayed.go:55-57 | only delayedError implements `Delayer`; it answers its stored duration unchanged and implements neither `Retryabler` nor `HTTPStatusCodeEr` |
| Errors.Cause | retryable.go:76-78 | a value has a cause exactly when its Go type has a `Cause()` method (all wrappers; not base errors, httpError or the test flag) |
| Errors.Wrap | retryable_test.go:29-37 | a pkg/errors-style wrap of nil is nil; otherwise it prefixes the message, keeps the error as cause and answers none of the capabilities |
| Chain.Walk | retryable.go:18-27 | the chain starts at the error, each element is the `Cause()` of the previous one, and it ends at the first value without `Cause()` |
| Chain.FirstAnswerIsFirstOnWalk | retryable.go:18-27 | the walk returns `v` exactly when some element of the chain answers `v` and no earlier element answers at all |
| Chain.NoAnswerOnWalk | retryable.go:28 | the walk finds nothing exactly when no element of the chain answers |
| Chain.PassesThrough | retryable.go:22-26 | a value that does not answer is transparent: the result is that of its cause |
| Chain.Shadows | retryable.go:19-21 | a value that answers decides; nothing below it is consulted |
| Retry.IsRetryable | retryable.go:13-29 | the loop returns true exactly when the first `Retryabler` on the chain says true; nil, or no `Retryabler`, gives false |
| Retry.IsNotRetryable | retryable.go:34-50 | the loop returns true exactly when the first `Retryabler` on the chain says false; nil, or no `Retryabler`, gives false; so it is never true together with IsRetryable |
| Retry.RetryableError | retryable.go:53-78 | nil stays nil; otherwise the marker keeps the message, has the error as cause, is retryable whatever the error says, and answers `HTTPStatusCode` with 500 |
| Retry.FirstRetryablerDecides | retryable.go:18-27 | the retry verdict is `b` exactly when the first element of the chain that implements `Retryable()` answers `b` |
| Retry.UnclassifiedIsNeither | retryable.go:28 | there is no retry verdict (both queries false) exactly when no element of the chain implements `Retryable()` |
| Retry.FlagAnswersItself | retryable_test.go:12-20 | the test type answers `Retryable()` with its own value and has no cause |
| Retry.WrapKeepsVerdict | retryable_test.go:37 | a pkg/errors-style wrapper does not change the retry verdict |
| Http.KnownMessageStatus | http.go:33-46 | the message switch: "permission denied" is the only message giving 403, every other hit gives 404, and every known message starts with 'p', 'f' or 's' |
| Http.HTTPStatusCode | http.go:20-54 | the loop returns 200 for nil; otherwise the first answer of the status walk (an `HTTPStatusCodeEr` first, then the message table, at each step); 500 when nothing answers |
| Http.HTTPError | http.go:58-92 | nil exactly for codes below 300 and 304; otherwise an error that resolves to the code, answers `StatusCode` with it, is retryable exactly for 500, 502, 503, 504 and 429, reads "Too Many Requests" for 429 and the reason phrase otherwise, and has no cause |
| Http.NotFoundError | http.go:96-121 | nil stays nil; otherwise it keeps the message and the cause, resolves to 404, its own `IsRetryable()` says false, and the retry verdict is that of the cause |
| Http.ForbiddenError | http.go:125-150 | as NotFoundError, with 403 |
| Http.InvalidError | http.go:154-179 | as NotFoundError, with 400 |
| Http.ConflictError | http.go:183-208 | as NotFoundError, with 409 |
| Http.FirstStatusDecides | http.go:28-53 | the status is `code` exactly when the first chain element that is an `HTTPStatusCodeEr` or has a known message gives `code`, or when `code` is 500 and no element answers |
| Http.UnknownIsInternal | http.go:53 | without an `HTTPStatusCodeEr` or known message on the chain the status is 500 |
| Http.HttpMessageIsNotKnown | http.go:67-74 | no message of an httpError is one of the messages of the table |
| Http.PrefixedMessageIsNotKnown | http.go:33-46 | a message whose first character is not 'p', 'f' or 's' is not in the table |
| Http.WrapKeepsStatus | http.go:47-51 | a wrapper whose own message is not in the table does not change the status |
| Http.WrappedStatuses | http_test.go:24-47 | the four markers and httpError keep their status (404, 403, 400, 409, the code) under a wrapper such as `Wrap(_, "bar")` |
| Http.RetryableShadowsStatus | retryable.go:72-74 | a retryable-marked error resolves to 500, even when the error inside is a not-found marker |
| Http.MarkersAreNotRetryablers | http.go:115-117 | a marker's own `IsRetryable()` says false, yet the retry verdict of a marker around a retryable error is true |
| Delays.Delay | delayed.go:15-31 | the loop returns the duration of the first `Delayer` on the chain, and 0 for nil or when there is no `Delayer` |
| Delays.WithDelay | delayed.go:34-61 | nil stays nil for any duration; otherwise the wrapper keeps the message and the cause, its delay is exactly the given duration (zero and negative ones included), and the retry verdict is that of the cause |
| Delays.NewDelayedError | delayed.go:42-44 | the result is an error with the given message and delay, whose cause is a plain error with that message, and which has no retry verdict |
| Delays.FirstDelayerDecides | delayed.go:20-30 | the delay is `d` exactly when the first `Delayer` on the chain says `d`, or when `d` is 0 and there is no `Delayer` |
| Delays.OuterDelayWins | delayed.go:21-23 | an outer delay wrapper shadows an inner one |
| Delays.MarkersKeepDelay | delayed.go:24-28 | the retryable marker, the status markers and pkg/errors-style wrappers do not change the delay |
| Delays.DelayKeepsStatus | delayed.go:59-61 | a delay wrapper does not change the status, unless its cause is an `HTTPStatusCodeEr` whose message is in the table |
| Delays.DelayCanUnmaskMessage | http.go:29-46 | that exception happens: a not-found error reading "permission denied" resolves to 404, and to 403 once delayed |
| Delays.DelayedHttpError | delayed.go:59-61 | an httpError keeps its status and its retry verdict under a delay wrapper |
| TestTables.IsRetryableTable | retryable_test.go:27-58 | every row of the IsRetryable test table |
| TestTables.IsNotRetryableTable | retryable_test.go:80-93 | every row of the IsNotRetryable test table |
| TestTables.HTTPStatusCodeTable | http_test.go:20-47 | every row of the HTTPStatusCode test table |
| TestTables.DelayTable | delayed_test.go:16-38 | every row of the Delay test table, and the messages of WithDelay and NewDelayedError |

## Left out

- backoffutil (the retry driver) is not part of this model. It adapts
  `github.com/cenk/backoff.Retry`, whose retry loop, jitter, timers and
  sleeping are not in the repository. Its behaviour cannot be stated
  without inventing that library's semantics.
- The `Example*` functions of the tests are left out: they issue HTTP requests
  or only show usage.
- net/http is reduced to the reason phrase table `NetHttp.StatusText`. A
  `*http.Response` is reduced to its integer status code. Status constants are
  integer literals.
- Foreign error packages are represented by values, not modelled:
  - pkg/errors, objenious/errors, os, database/sql and cloud.google.com/go/storage
    sentinels are `Base` values with their messages;
  - `Wrap` is the generic `Foreign` wrapper, without its stack trace.
    pkg/errors' `Wrap` builds two values on the `Cause()` chain, a stack
    holder around a message holder; the model merges them into one `Foreign`
    value. Neither answers a capability and both read `prefix + ": " + inner`,
    so no query result differs, but `Chain.Walk` of a wrapped error is one
    element shorter than the Go chain.
- A foreign causer whose `Cause()` returns nil cannot be represented: every
  wrapper here owns a non-nil cause. In Go such a value ends the walk with the
  default answer, which is what a value without `Cause()` gives here.
- Cyclic `Cause()` chains, on which the Go loops would not terminate, cannot be
  built from the datatype.
- The test type's `Error()` formats itself with `%v`, which in Go calls
  `Error()` again. The model gives it the text of its boolean instead.
- `time.Duration` is an unbounded integer count of nanoseconds. No arithmetic
  is done on it, so its 64-bit width plays no part.
