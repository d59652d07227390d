/** The rows of the repository's table-driven tests, stated as lemmas about
    the model. `errors.New` and `pkg/errors.New` both build a Base value, the
    stdlib and storage sentinels are Base values with their messages, and
    `Wrap` stands for both `pkg/errors.Wrap` and `objenious/errors.Wrap`. */
module TestTables {
  import opened Errors
  import opened Retry
  import opened Http
  import opened Delays

  predicate Retries(err: Option<Err>)
  {
    RetryVerdict(err) == Some(true)
  }

  predicate Refuses(err: Option<Err>)
  {
    RetryVerdict(err) == Some(false)
  }

  lemma IsRetryableTable()
    ensures !Retries(None)
    ensures !Retries(RetryableError(None))
    ensures !Retries(Wrap(RetryableError(None), "bar"))
    ensures !Retries(Some(Base("foo")))
    ensures !Retries(Wrap(Some(Base("foo")), "bar"))
    ensures Retries(RetryableError(Some(Base("foo"))))
    ensures Retries(Wrap(RetryableError(Some(Base("foo"))), "bar"))
    ensures Retries(HTTPError(502)) && Retries(Wrap(HTTPError(502), "bar"))
    ensures Retries(HTTPError(500)) && Retries(Wrap(HTTPError(500), "bar"))
    ensures Retries(HTTPError(504)) && Retries(Wrap(HTTPError(504), "bar"))
    ensures Retries(HTTPError(429)) && Retries(Wrap(HTTPError(429), "bar"))
    ensures !Retries(HTTPError(404)) && !Retries(Wrap(HTTPError(404), "bar"))
    ensures !Retries(NotFoundError(Some(Base("foo"))))
    ensures !Retries(HTTPError(400)) && !Retries(Wrap(HTTPError(400), "bar"))
    ensures !Retries(InvalidError(Some(Base("foo"))))
    ensures !Retries(HTTPError(403)) && !Retries(Wrap(HTTPError(403), "bar"))
    ensures !Retries(ForbiddenError(Some(Base("foo"))))
    ensures !Retries(Some(Flag(false))) && Retries(Some(Flag(true)))
  {
  }

  lemma IsNotRetryableTable()
    ensures !Refuses(None)
    ensures !Refuses(RetryableError(None))
    ensures !Refuses(Wrap(RetryableError(None), "bar"))
    ensures !Refuses(Some(Base("foo")))
    ensures !Refuses(Wrap(Some(Base("foo")), "bar"))
    ensures !Refuses(RetryableError(Some(Base("foo"))))
    ensures !Refuses(Wrap(RetryableError(Some(Base("foo"))), "bar"))
    ensures Refuses(Some(Flag(false))) && !Refuses(Some(Flag(true)))
  {
  }

  lemma HTTPStatusCodeTable()
    ensures ResolvedStatus(None) == 200
    ensures ResolvedStatus(Some(Base("foo"))) == 500
    ensures ResolvedStatus(Some(Base("file does not exist"))) == 404
    ensures ResolvedStatus(Wrap(Some(Base("file does not exist")), "bar")) == 404
    ensures ResolvedStatus(Some(Base("permission denied"))) == 403
    ensures ResolvedStatus(Wrap(Some(Base("permission denied")), "bar")) == 403
    ensures ResolvedStatus(Some(Base("sql: no rows in result set"))) == 404
    ensures ResolvedStatus(Wrap(Some(Base("sql: no rows in result set")), "bar")) == 404
    ensures ResolvedStatus(Some(Base("storage: bucket doesn't exist"))) == 404
    ensures ResolvedStatus(Wrap(Some(Base("storage: bucket doesn't exist")), "bar")) == 404
    ensures ResolvedStatus(Some(Base("storage: object doesn't exist"))) == 404
    ensures ResolvedStatus(Wrap(Some(Base("storage: object doesn't exist")), "bar")) == 404
    ensures ResolvedStatus(HTTPError(404)) == 404
    ensures ResolvedStatus(Wrap(HTTPError(404), "bar")) == 404
    ensures ResolvedStatus(HTTPError(403)) == 403
    ensures ResolvedStatus(Wrap(HTTPError(403), "bar")) == 403
    ensures ResolvedStatus(NotFoundError(Some(Base("foo")))) == 404
    ensures ResolvedStatus(Wrap(NotFoundError(Some(Base("foo"))), "bar")) == 404
    ensures ResolvedStatus(ForbiddenError(Some(Base("foo")))) == 403
    ensures ResolvedStatus(Wrap(ForbiddenError(Some(Base("foo"))), "bar")) == 403
    ensures ResolvedStatus(InvalidError(Some(Base("foo")))) == 400
    ensures ResolvedStatus(Wrap(InvalidError(Some(Base("foo"))), "bar")) == 400
    ensures ResolvedStatus(ConflictError(Some(Base("foo")))) == 409
    ensures ResolvedStatus(Wrap(ConflictError(Some(Base("foo"))), "bar")) == 409
  {
    WrappedStatuses(Base("foo"), "bar", 404);
    WrappedStatuses(Base("foo"), "bar", 403);
  }

  lemma DelayTable()
    ensures ResolvedDelay(None) == 0
    ensures ResolvedDelay(WithDelay(None, 0)) == 0
    ensures ResolvedDelay(WithDelay(None, 10)) == 0
    ensures ResolvedDelay(WithDelay(Some(Base("foo")), 0)) == 0
    ensures ResolvedDelay(WithDelay(Some(Base("foo")), 10)) == 10
    ensures ErrorText(WithDelay(Some(Base("foobar")), 10).value) == "foobar"
    ensures ErrorText(NewDelayedError("delayed Error", 10).value) == "delayed Error"
  {
  }
}
