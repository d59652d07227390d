/** The cause-chain walk shared by IsRetryable, IsNotRetryable, Delay and
    HTTPStatusCode: starting from an error, ask each value in turn, following
    `Cause()`, and stop at the first value that answers. */
module Chain {
  import opened Errors

  /** The cause chain of `e` as a sequence: `e`, its cause, the cause of that,
      down to the first value without a `Cause()` method. */
  function Walk(e: Err): (w: seq<Err>)
    ensures 0 < |w| && w[0] == e
    ensures forall i :: 0 <= i < |w| - 1 ==> Cause(w[i]) == Some(w[i + 1])
    ensures Cause(w[|w| - 1]).None?
  {
    if e.HasCause() then [e] + Walk(e.inner) else [e]
  }

  /** Number of values a walk starting at `err` visits. */
  function Depth(err: Option<Err>): nat
  {
    match err
    case None => 0
    case Some(e) => |Walk(e)|
  }

  /** The answer of the first value on the chain of `e` for which `ask`
      answers, or `None` when none does. */
  function FirstAnswer<T>(ask: Err -> Option<T>, e: Err): Option<T>
  {
    match ask(e)
    case Some(v) => Some(v)
    case None => if e.HasCause() then FirstAnswer(ask, e.inner) else None
  }

  /** FirstAnswer lifted to a possibly nil error. */
  function Answer<T>(ask: Err -> Option<T>, err: Option<Err>): Option<T>
  {
    match err
    case None => None
    case Some(e) => FirstAnswer(ask, e)
  }

  /** `ask` answers `v` at position `i` of `w`, and at no earlier position. */
  ghost predicate AnsweredFirstAt<T>(ask: Err -> Option<T>, w: seq<Err>, i: int, v: T)
  {
    0 <= i < |w| && ask(w[i]) == Some(v) && forall j :: 0 <= j < i ==> ask(w[j]).None?
  }

  /** The walk returns `v` exactly when `v` is what the first answering value
      of the cause chain says. */
  lemma {:induction false} FirstAnswerIsFirstOnWalk<T>(ask: Err -> Option<T>, e: Err, v: T)
    ensures FirstAnswer(ask, e) == Some(v) <==> exists i :: AnsweredFirstAt(ask, Walk(e), i, v)
  {
    var w := Walk(e);
    match ask(e)
    case Some(u) =>
      assert FirstAnswer(ask, e) == Some(u);
      if u == v {
        assert AnsweredFirstAt(ask, w, 0, v);
        assert exists i :: AnsweredFirstAt(ask, Walk(e), i, v);
        assert FirstAnswer(ask, e) == Some(v);
      } else {
        forall i | 0 <= i < |w| && ask(w[i]) == Some(v)
          ensures !AnsweredFirstAt(ask, w, i, v)
        {
          assert i != 0;
          assert ask(w[0]).Some?;
        }
      }
    case None =>
      if e.HasCause() {
        var w' := Walk(e.inner);
        FirstAnswerIsFirstOnWalk(ask, e.inner, v);
        assert w == [e] + w';
        assert forall k :: 0 < k < |w| ==> w[k] == w'[k - 1];
        if FirstAnswer(ask, e) == Some(v) {
          var k :| AnsweredFirstAt(ask, w', k, v);
          assert AnsweredFirstAt(ask, w, k + 1, v);
        }
        if i :| AnsweredFirstAt(ask, w, i, v) {
          assert i != 0;
          forall j | 0 <= j < i - 1 ensures ask(w'[j]).None? {
            assert w'[j] == w[j + 1];
          }
          assert AnsweredFirstAt(ask, w', i - 1, v);
        }
      } else {
        assert w == [e];
      }
  }

  /** No value of `w` answers `ask`. */
  ghost predicate Silent<T>(ask: Err -> Option<T>, w: seq<Err>)
  {
    forall i :: 0 <= i < |w| ==> ask(w[i]).None?
  }

  /** The walk finds nothing exactly when no value of the chain answers. */
  lemma {:induction false} NoAnswerOnWalk<T>(ask: Err -> Option<T>, e: Err)
    ensures FirstAnswer(ask, e).None? <==> Silent(ask, Walk(e))
  {
    var w := Walk(e);
    if ask(e).Some? {
      assert FirstAnswer(ask, e) == ask(e);
      assert ask(w[0]).Some?;
    } else if e.HasCause() {
      var w' := Walk(e.inner);
      NoAnswerOnWalk(ask, e.inner);
      assert w == [e] + w';
      if Silent(ask, w) {
        forall j | 0 <= j < |w'| ensures ask(w'[j]).None? {
          assert w'[j] == w[j + 1];
        }
      }
      if Silent(ask, w') {
        forall i | 0 <= i < |w| ensures ask(w[i]).None? {
          if i > 0 { assert w[i] == w'[i - 1]; }
        }
      }
    } else {
      assert w == [e];
    }
  }

  /** A value that does not answer is transparent: the walk goes on at its cause. */
  lemma PassesThrough<T>(ask: Err -> Option<T>, e: Err)
    requires ask(e).None?
    ensures Answer(ask, Some(e)) == Answer(ask, Cause(e))
  {
  }

  /** A value that answers shadows everything below it. */
  lemma Shadows<T>(ask: Err -> Option<T>, e: Err)
    requires ask(e).Some?
    ensures Answer(ask, Some(e)) == ask(e)
  {
  }
}
