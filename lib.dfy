/**
 * The `WithContext` trait of src/lib.rs, over both input shapes it is
 * implemented for. Every call returns a `Result<T, ErrorMessage>`: a
 * success passes through untouched, a failure gains exactly one level.
 */
module WithContextTrait {
  import opened Wrappers
  import opened ErrorMessages
  import ResultContext
  import OptionContext

  /** The two implementors: an optional value and a fallible value. */
  datatype Contextualizable<T> =
    | OptionInput(option: Option<T>)
    | ResultInput(result: Result<T, Cause>)

  predicate Succeeds<T>(x: Contextualizable<T>)
  {
    match x
    case OptionInput(o) => o.Some?
    case ResultInput(r) => r.Ok?
  }

  function SuccessValue<T>(x: Contextualizable<T>): T
    requires Succeeds(x)
  {
    match x
    case OptionInput(o) => o.value
    case ResultInput(r) => r.value
  }

  /** The levels a failure already carries: none for `None`, the error's own for `Err`. */
  function PriorLines<T>(x: Contextualizable<T>): seq<string>
    requires !Succeeds(x)
  {
    match x
    case OptionInput(_) => []
    case ResultInput(r) => CauseLines(r.error)
  }

  /** `with_err_context` on either shape. */
  function WithErrContext<T>(x: Contextualizable<T>, reason: string): (out: Result<T, ErrorMessage>)
    ensures out.Ok? <==> Succeeds(x)
    ensures out.Ok? ==> out.value == SuccessValue(x)
    ensures out.Err? ==> out.error.message == reason
    ensures out.Err? ==> Lines(out.error) == [reason] + PriorLines(x)
    ensures out.Err? ==> Depth(out.error) == |PriorLines(x)| + 1
  {
    match x
    case OptionInput(o) =>
      OptionContext.WithErrContext(o, reason)
    case ResultInput(r) =>
      var out := ResultContext.WithErrContext(r, reason);
      if out.Err? then LinesCountLevels(out.error); out else out
  }

  /** `with_dyn_err_context` on either shape: the producer runs once on failure, never on success. */
  method WithDynErrContext<T>(x: Contextualizable<T>, reason: () -> string)
    returns (out: Result<T, ErrorMessage>, calls: nat)
    ensures calls == if Succeeds(x) then 0 else 1
    ensures out == WithErrContext(x, reason())
  {
    match x {
      case OptionInput(o) =>
        out, calls := OptionContext.WithDynErrContext(o, reason);
      case ResultInput(r) =>
        out, calls := ResultContext.WithDynErrContext(r, reason);
    }
  }
}
