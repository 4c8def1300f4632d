/** `WithContext` for `Option<T>` (src/option.rs). */
module OptionContext {
  import opened Wrappers
  import opened ErrorMessages

  /**
   * `with_err_context`: a present value becomes a success; an absent one a
   * failure holding a causeless node, since `None` carries no inner error.
   */
  function WithErrContext<T>(o: Option<T>, context: string): (out: Result<T, ErrorMessage>)
    ensures out.Ok? <==> o.Some?
    ensures o.Some? ==> out.value == o.value
    ensures o.None? ==> out.error.message == context && out.error.cause.None?
    ensures o.None? ==> Render(out.error) == context && Depth(out.error) == 1
  {
    match o
    case Some(v) => Ok(v)
    case None => ErrorMessages.Err(context)
  }

  /** `with_dyn_err_context`: the producer runs only for `None`, and then exactly once. */
  method WithDynErrContext<T>(o: Option<T>, context: () -> string)
    returns (out: Result<T, ErrorMessage>, calls: nat)
    ensures calls == if o.None? then 1 else 0
    ensures out == WithErrContext(o, context())
  {
    match o {
      case Some(v) =>
        out, calls := Ok(v), 0;
      case None =>
        var message := context();
        calls := 1;
        out := ErrorMessages.Err(message);
    }
  }
}
