# errors_with_context, modelled in Dafny

A model of the Rust crate `errors_with_context`: the `ErrorMessage` chain
node (a message plus an optional owned cause), its constructors, the
`WithContext` trait for `Result` and `Option` (eager and lazy messages),
the `BooleanErrors` helpers, the flat "caused by" rendering (`Display`),
the two `Debug` forms and the serde serialization.

Files, one module per Rust source file:

- `wrappers.dfy` (`Wrappers`): Rust's `Option` and `Result`.
- `error_message.dfy` (`ErrorMessages`): the node, `new`/`err`/`with_context`,
  `Render` and `FmtCause` (`Display::fmt` and `fmt_cause`), `Debug`.
- `result.dfy` (`ResultContext`), `option.dfy` (`OptionContext`): the trait
  implementations.
- `boolean.dfy` (`BooleanErrors`), `serde.dfy` (`Serde`).
- `lib.dfy` (`WithContextTrait`): the trait over both input shapes.
- `examples.dfy` (`Examples`): the exact outputs fixed by the doctests and
  unit tests.

Modelling choices:

- Rust decides at render time whether a boxed cause is an `ErrorMessage`
  (`downcast_ref`). Here the cause is tagged when it is built:
  `Cause = Chain(ErrorMessage) | Foreign(debugText, displayText)`. A foreign
  error is known only by its `Debug` text and its `Display` text.
- The error of a `Result<T, E>` input is a `Cause`. An `ErrorMessage` error
  is `Chain` (`ResultContext.AsCause` does the boxing). Any other error is
  `Foreign`.
- A lazy message is a Dafny function value `() -> string`. The lazy
  variants are methods that also return `calls`. This is the number of
  producer invocations the method reports, set by the method itself next to
  its one call of the producer; nothing outside the method counts the calls.
- The `pretty_debug_errors` feature is the `prettyDebugErrors` parameter of
  `DebugFmt`.
- The non-pretty `Debug` output is the tree `DebugStruct` that
  `debug_struct` is given. The serialized form is the struct `SerStruct`
  that the serializer is given. Its `cause` field keeps three shapes apart:
  a nested node as a bare struct, a foreign cause as `Some(struct)`, and no
  cause as `None` (src/serde.rs:13-21). `ToJson` is the JSON view of it,
  the tree `SerNode`, where `Some(x)` is written as `x`. There every
  `cause` is null or another two-field object, so the JSON output is
  homogeneous. A format that tags `Option` writes the chain case without
  the tag the other two carry.
- `Serde.Deserialize` and `ErrorMessages.ParseRendered` are not part of
  the crate, which only serializes and renders. They exist in the model
  only to state the round trips that show nothing is lost or reordered.
- The code, not the prose around it, decides. The non-pretty `Debug` output
  does not turn a foreign cause into a synthesized node; it prints
  `Some(<debug text>)` (src/error_message.rs:106-111). Only serialization
  synthesizes a node. Messages may be empty; the code does not check them.
- Some "prints" blocks in src/lib.rs disagree with the asserts next to
  them. Lines 106-107, 144-145, 460-461, 480-481 and 501-502 indent the
  cause line by one space, not two. Lines 480-481 and 499-502 also show
  another example's output. The model follows the asserts (src/lib.rs:102,
  140, 456, 476, 497).

## Model

| member | source | states |
|---|---|---|
| ErrorMessages.New | src/error_message.rs:45-47 | `new(m)` has no cause and renders as exactly `m`; the chain has one level |
| ErrorMessages.Err | src/error_message.rs:58-60 | `err(m)` is a failure holding the causeless node `new(m)`, which renders as `m` |
| ErrorMessages.WithContext | src/error_message.rs:70-72 | `with_context(m, c)` keeps `m` and owns exactly `c`; it renders as `m`, the separator, then the cause's text; it has one more level than `c` |
| ErrorMessages.Render | src/error_message.rs:90-97 | `Display::fmt`: the message, then `fmt_cause` if there is a cause; its contract says the message is a prefix and the text is longer exactly when there is a cause; specified further by RenderIsJoin, RenderStartsWithMessage, SeparatorCount and RenderParsesBack |
| ErrorMessages.FmtCause | src/error_message.rs:144-155 | `fmt_cause`: the separator, then the nested node's message and its own cause, or the foreign debug text; its contract says the text starts with the separator; specified further by FmtCauseIsSeparatorThenText and RenderIsJoin |
| ErrorMessages.FmtCauseIsSeparatorThenText | src/error_message.rs:144-155 | `fmt_cause` writes the separator, then the nested node's full rendering or the foreign debug text |
| ErrorMessages.RenderStartsWithMessage | src/error_message.rs:90-97 | the rendering starts with the message verbatim; it equals the message if and only if there is no cause; otherwise the separator and the cause's text follow |
| ErrorMessages.WrappedChainOutermostFirst | src/error_message.rs:146-150 | wrapping a node renders the new message, the separator, then the old rendering; the new message comes first in the levels |
| ErrorMessages.ForeignCauseIsTerminal | src/error_message.rs:151-153 | a foreign cause is written once as its debug text and ends the chain |
| ErrorMessages.RenderIsJoin | src/error_message.rs:90-155 | the flat rendering is the levels' texts, outermost first, joined by `"\n  caused by: "`: nothing dropped, repeated or reordered |
| ErrorMessages.LinesCountLevels | src/error_message.rs:28-34 | there is one rendered text per chain level, a foreign cause counting as one level |
| ErrorMessages.LinesAreMessagesThenLeaf | src/error_message.rs:144-155 | the rendered texts are the node messages in order, then the foreign debug text if the chain ends in a foreign error |
| ErrorMessages.JoinLinesLineBreaks | src/error_message.rs:145 | joining `k` texts without line breaks writes exactly `k - 1` line breaks |
| ErrorMessages.SeparatorCount | src/error_message.rs:144-155 | a chain of `k` levels renders with exactly `k - 1` separators, counted as line breaks when no text contains one |
| ErrorMessages.ParseJoinLines | src/error_message.rs:145 | splitting the joined text at line breaks and removing the separator's indentation gives back the texts |
| ErrorMessages.RenderParsesBack | src/error_message.rs:90-155 | the flat rendering determines every level's text, outermost first, when no text contains a line break |
| ErrorMessages.DebugAgreesWithDisplay | src/error_message.rs:100-125 | with `pretty_debug_errors` the `Debug` output is the `Display` text; without it the struct dump has one nesting level per chain level and holds the same texts in the same order |
| ErrorMessages.DebugCauseField | src/error_message.rs:100-118 | the struct dump's `cause` field is `None` exactly when there is no cause, the nested node for a chain cause, and `Some(<debug text>)` exactly for a foreign cause, holding that cause's own `Debug` text; the non-pretty `Debug` output is exactly this dump |
| ErrorMessages.DebugStructOf | src/error_message.rs:100-118 | the `Debug` impl without `pretty_debug_errors`: the message field and a cause field that is the nested node, `Some(<debug text>)` or `None`; its contract says the message is kept and there is one nesting level per chain level; specified further by DebugCauseField and DebugAgreesWithDisplay |
| ErrorMessages.DebugFmt | src/error_message.rs:100-125 | `Debug::fmt` under either setting of `pretty_debug_errors`: the flat text when it is on, the struct dump when it is off; specified further by DebugAgreesWithDisplay |
| ResultContext.WithErrContext | src/result.rs:24-29 | `Ok(v)` stays `Ok(v)`; `Err(e)` becomes one new node with the context as message and `e` as cause, one level deeper, rendering as context, separator, then `e`'s text |
| ResultContext.WithDynErrContext | src/result.rs:31-36 | the producer runs never on `Ok` and exactly once on `Err`; the result equals the eager variant's with the produced text |
| ResultContext.AsCause | src/error_message.rs:71 | an `ErrorMessage` error boxed as the next cause is a chain cause whose levels are the node's own |
| ResultContext.ApplyContextsStacks | src/result.rs:24-29 | `n` successive contexts over a failure add `n` levels with the last context outermost; over a success they change nothing |
| OptionContext.WithErrContext | src/option.rs:6-13 | `Some(v)` becomes `Ok(v)`; `None` becomes a failure holding a causeless node whose rendering is exactly the context |
| OptionContext.WithDynErrContext | src/option.rs:14-21 | the producer runs only for `None`, exactly once; the result equals the eager variant's with the produced text |
| BooleanErrors.ErrorIfFalse | src/boolean.rs:119-126 | `true` gives `Ok(true)`; `false` gives a failure holding `new(context)`, which renders as exactly the context |
| BooleanErrors.ErrorIfTrue | src/boolean.rs:128-135 | `false` gives `Ok(false)`; `true` gives a failure holding `new(context)`, which renders as exactly the context |
| BooleanErrors.ErrorDynIfFalse | src/boolean.rs:137-144 | the producer runs only when the value is false, exactly once; the result equals the eager variant's |
| BooleanErrors.ErrorDynIfTrue | src/boolean.rs:146-153 | the producer runs only when the value is true, exactly once; the result equals the eager variant's |
| BooleanErrors.IfTrueIsIfFalseOfNegation | src/boolean.rs:119-135 | `error_if_true(b)` fails exactly when `error_if_false(!b)` does, with the same node |
| Serde.Serialize | src/serde.rs:5-25 | `Serialize for ErrorMessage`: the message field and a cause field that is the bare nested struct, `Some(new(<display text>))` or `None`; its contract says the message is kept and the JSON tree has one level per chain level; specified further by SerializeFields, SerializeLevels and the round-trip lemmas |
| Serde.SerializeFields | src/serde.rs:10-23 | `message` is the node's message; `cause` is `None` exactly when there is no cause, the bare nested struct for a chain cause, and `Some` of `new(<display text>)` for a foreign cause; in JSON the first is null and the other two are objects, the foreign one `{message: <display text>, cause: null}` |
| Serde.SerializeLevels | src/serde.rs:13-21 | the JSON tree has one level per chain level, and its messages match level by level, the foreign leaf giving its display text |
| Serde.SerializeDeserialize | src/serde.rs:5-25 | every two-field JSON tree is the serialization of the chain it reads back as |
| Serde.DeserializeSerialize | src/serde.rs:13-21 | a chain without a foreign leaf is unchanged by serializing to JSON and reading back |
| Serde.DeserializeLevels | src/serde.rs:13-21 | reading a tree back keeps its depth and its messages level by level, and yields no foreign leaf |
| WithContextTrait.WithErrContext | src/lib.rs:431-463 | for both input shapes: success passes through unchanged; a failure gains exactly one level whose message is the reason, over the levels it already had |
| WithContextTrait.WithDynErrContext | src/lib.rs:465-504 | for both input shapes: the producer runs once on failure and never on success, with the eager variant's result |
| Examples.NoReason | src/tests.rs:9-16 | `new("I/O Error")` renders as `I/O Error` |
| Examples.ResultMultipleReasons | src/tests.rs:19-33 | three contexts over `err("I/O Error")` render as four lines, outermost first |
| Examples.OptionSingleReason | src/tests.rs:36-44 | `None` with a context renders as exactly the context |
| Examples.Functions | src/tests.rs:48-72 | two contexts over a custom I/O error end in its debug text |
| Examples.JoinThree | src/tests.rs:69-71 | three texts joined by the separator give the three-line text |
| Examples.JoinFour | src/tests.rs:29-32 | four texts joined by the separator give the four-line text |
| Examples.RenderThreeOverForeign | src/lib.rs:59-65 | three nested contexts over a foreign error render the messages outermost first, then the debug text |
| Examples.StartProgram | src/lib.rs:22-65 | the first doctest renders its exact four lines, running the producer once |
| Examples.EagerExamples | src/lib.rs:77-103 | `None` renders as the context; a wrapped `UnexpectedEof` renders as context, separator, `Kind(UnexpectedEof)` |
| Examples.LazyExamples | src/lib.rs:112-141 | the lazy doctests render the produced text, the `Err` one followed by `Kind(UnexpectedEof)` |
| Examples.SuccessSkipsProducer | src/lib.rs:14 | on `Ok` the producer is never run and the value passes through |
| Examples.BooleanExamples | src/boolean.rs:7-34 | `false.error_if_false(..)` and its lazy form render exactly their messages |
| Examples.RealWorldDebug | src/lib.rs:257-260 | without `pretty_debug_errors`, the real-world chain dumps as nested structs ending in `Some(<OS error debug text>)` |
| Examples.SerializeNotFound | src/tests.rs:104-126 | the three-context chain over `NotFound` serializes as nested objects ending in `{message: "entity not found", cause: null}` |
| Examples.SerializeCustomBase | src/tests.rs:76-100 | the three-context chain over `err("I/O Error")` serializes as four nested objects |

## Left out

- The `send` feature (src/error_message.rs:30-31, 82-85, 128-140; src/result.rs:5-20). It only adds a compile-time `Send` bound and behaves like the code modelled.
- Errors returned by the formatter sink (`?` on `write_str`). Rendering is total string building.
- The exact text of `serde_json` pretty printing and of `debug_struct`, with their quoting and escaping. These are formatting libraries; the model stops at the trees they are given.
- `std::error::Error` and `downcast_ref`. The tagged `Cause` replaces them.
- ErrorMessages.DebugAgreesWithDisplay: formatter flags such as `{:#}` and `{:#?}` are not modelled. `fmt_cause` hands the caller's formatter to the foreign error's `Debug::fmt` (src/error_message.rs:152), so the alternate flag prints the foreign leaf in its multi-line form. `debugText` is the foreign error's plain `{:?}` text, so `Render` and `ErrorMessages.DebugAgreesWithDisplay` describe `{}` and `{:?}` only.
- The foreign errors' `Debug` and `Display` texts. They are opaque inputs here; the examples give the texts Rust's `io::Error` produces.
- `impl ToString` versus `impl AsRef<str>` message parameters. Every message is a `string`.
- Doctest scaffolding that opens files, spawns processes or uses `tokio` (src/lib.rs:181-232, 298-325, 340-355).
- A producer's own side effects. The lazy variants report how often they run it in `calls`; that count is set by each method's body, not observed from the producer.
