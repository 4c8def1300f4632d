/** `BooleanErrors for bool` (src/boolean.rs): booleans turned into results. */
module BooleanErrors {
  import opened Wrappers
  import opened ErrorMessages

  /** `error_if_false`: `true` is a success carrying `true`; `false` a causeless failure. */
  function ErrorIfFalse(b: bool, context: string): (r: Result<bool, ErrorMessage>)
    ensures r.Ok? <==> b
    ensures r.Ok? ==> r.value == b
    ensures r.Err? ==> r.error == New(context) && Render(r.error) == context
  {
    if b then Ok(b) else Result.Err(New(context))
  }

  /** `error_if_true`: `false` is a success carrying `false`; `true` a causeless failure. */
  function ErrorIfTrue(b: bool, context: string): (r: Result<bool, ErrorMessage>)
    ensures r.Ok? <==> !b
    ensures r.Ok? ==> r.value == b
    ensures r.Err? ==> r.error == New(context) && Render(r.error) == context
  {
    if b then Result.Err(New(context)) else Ok(b)
  }

  /** `error_dyn_if_false`: the producer runs only when `b` is false, and then once. */
  method ErrorDynIfFalse(b: bool, context: () -> string) returns (r: Result<bool, ErrorMessage>, calls: nat)
    ensures calls == if b then 0 else 1
    ensures r == ErrorIfFalse(b, context())
  {
    if b {
      r, calls := Ok(b), 0;
    } else {
      var message := context();
      calls := 1;
      r := Result.Err(New(message));
    }
  }

  /** `error_dyn_if_true`: the producer runs only when `b` is true, and then once. */
  method ErrorDynIfTrue(b: bool, context: () -> string) returns (r: Result<bool, ErrorMessage>, calls: nat)
    ensures calls == if b then 1 else 0
    ensures r == ErrorIfTrue(b, context())
  {
    if b {
      var message := context();
      calls := 1;
      r := Result.Err(New(message));
    } else {
      r, calls := Ok(b), 0;
    }
  }

  /** `error_if_true(b)` fails exactly when `error_if_false(!b)` does, with the same node. */
  lemma IfTrueIsIfFalseOfNegation(b: bool, context: string)
    ensures ErrorIfTrue(b, context).Err? <==> ErrorIfFalse(!b, context).Err?
    ensures ErrorIfTrue(b, context).Err? ==> ErrorIfTrue(b, context).error == ErrorIfFalse(!b, context).error
    ensures ErrorIfTrue(b, context).Ok? ==> ErrorIfTrue(b, context).value == !ErrorIfFalse(!b, context).value
  {
  }
}
