/**
 * `WithContext` for `Result<T, E>` (src/result.rs). The error of the input
 * is seen the way the boxed cause sees it: an `ErrorMessage` error is a
 * `Chain` cause, any other error a `Foreign` one.
 */
module ResultContext {
  import opened Wrappers
  import opened ErrorMessages

  /** `with_err_context`: success passes through; a failure gains exactly one node. */
  function WithErrContext<T>(r: Result<T, Cause>, context: string): (out: Result<T, ErrorMessage>)
    ensures out.Ok? <==> r.Ok?
    ensures r.Ok? ==> out.value == r.value
    ensures r.Err? ==> out.error.message == context && out.error.cause == Some(r.error)
    ensures r.Err? ==> Depth(out.error) == CauseDepth(r.error) + 1
    ensures r.Err? ==> Lines(out.error) == [context] + CauseLines(r.error)
    ensures r.Err? ==> Render(out.error) == context + CausedBy + CauseText(r.error)
  {
    match r
    case Ok(v) => Ok(v)
    case Err(e) => Result.Err(WithContext(context, e))
  }

  /**
   * `with_dyn_err_context`: the message producer runs only on failure, and
   * then exactly once; `calls` counts its invocations.
   */
  method WithDynErrContext<T>(r: Result<T, Cause>, context: () -> string)
    returns (out: Result<T, ErrorMessage>, calls: nat)
    ensures calls == if r.Err? then 1 else 0
    ensures out == WithErrContext(r, context())
  {
    match r {
      case Ok(v) =>
        out, calls := Ok(v), 0;
      case Err(e) =>
        var message := context();
        calls := 1;
        out := Result.Err(WithContext(message, e));
    }
  }

  /** Boxing a `Result<T, ErrorMessage>` error as the next layer's cause. */
  function AsCause<T>(r: Result<T, ErrorMessage>): (c: Result<T, Cause>)
    ensures c.Ok? <==> r.Ok?
    ensures r.Ok? ==> c.value == r.value
    ensures r.Err? ==> c.error == Chain(r.error) && CauseLines(c.error) == Lines(r.error)
  {
    match r
    case Ok(v) => Ok(v)
    case Err(e) => Result.Err(Chain(e))
  }

  /** Calls `with_err_context` once per context, `contexts[0]` first (innermost). */
  function ApplyContexts<T>(r: Result<T, Cause>, contexts: seq<string>): Result<T, Cause>
    decreases |contexts|
  {
    if |contexts| == 0 then r
    else ApplyContexts(AsCause(WithErrContext(r, contexts[0])), contexts[1..])
  }

  function Reversed(s: seq<string>): (r: seq<string>)
    ensures |r| == |s|
  {
    if |s| == 0 then [] else Reversed(s[1..]) + [s[0]]
  }

  /**
   * `n` context attachments over a failure add `n` levels, with the last
   * attached message outermost; over a success they change nothing.
   */
  lemma {:induction false} ApplyContextsStacks<T>(r: Result<T, Cause>, contexts: seq<string>)
    ensures r.Ok? ==> ApplyContexts(r, contexts) == r
    ensures r.Err? ==> ApplyContexts(r, contexts).Err?
    ensures r.Err? ==> CauseLines(ApplyContexts(r, contexts).error) == Reversed(contexts) + CauseLines(r.error)
    ensures r.Err? ==> CauseDepth(ApplyContexts(r, contexts).error) == |contexts| + CauseDepth(r.error)
    ensures r.Err? && |contexts| > 0 ==> ApplyContexts(r, contexts).error.Chain?
    decreases |contexts|
  {
    if |contexts| > 0 {
      var next := AsCause(WithErrContext(r, contexts[0]));
      ApplyContextsStacks(next, contexts[1..]);
      if r.Err? {
        assert CauseLines(next.error) == [contexts[0]] + CauseLines(r.error);
        assert Reversed(contexts) == Reversed(contexts[1..]) + [contexts[0]];
      }
    }
  }
}
