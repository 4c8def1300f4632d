/**
 * The exact outputs fixed by the crate's doctests (src/lib.rs,
 * src/boolean.rs) and unit tests (src/tests.rs), stated over the model.
 * The foreign `io::Error` values are given by their two texts.
 */
module Examples {
  import opened Wrappers
  import opened ErrorMessages
  import ResultContext
  import OptionContext
  import BooleanErrors
  import Serde

  /** `io::Error::from(ErrorKind::UnexpectedEof)`. */
  const UnexpectedEof: Cause := Foreign("Kind(UnexpectedEof)", "unexpected end of file")

  /** `io::Error::from(ErrorKind::NotFound)`. */
  const NotFound: Cause := Foreign("Kind(NotFound)", "entity not found")

  /** `io::Error::new(ErrorKind::NotFound, "Test message")`. */
  const CustomNotFound: Cause := Foreign("Custom { kind: NotFound, error: \"Test message\" }", "Test message")

  /** The `NotFound` OS error of the real-world example. */
  const NoSuchFile: Cause := Foreign("Os { code: 2, kind: NotFound, message: \"No such file or directory\" }", "No such file or directory (os error 2)")

  /** `test_no_reason`: a causeless node renders as its message. */
  lemma NoReason()
    ensures Render(New("I/O Error")) == "I/O Error"
  {
  }

  /** Three `with_err_context` calls over `ErrorMessage::err("I/O Error")`. */
  function ThreeContexts(): Result<(), ErrorMessage>
  {
    var r0 := ResultContext.AsCause(ErrorMessages.Err<()>("I/O Error"));
    var r1 := ResultContext.AsCause(ResultContext.WithErrContext(r0, "Failed to read file"));
    var r2 := ResultContext.AsCause(ResultContext.WithErrContext(r1, "Failed to load configuration"));
    ResultContext.WithErrContext(r2, "Failed to start the program")
  }

  /** `test_result_multiple_reasons`: four levels, outermost first, three separators. */
  lemma ResultMultipleReasons()
    ensures ThreeContexts().Err?
    ensures Render(ThreeContexts().error) ==
      "Failed to start the program" + "\n  caused by: " + "Failed to load configuration" + "\n  caused by: " + "Failed to read file" + "\n  caused by: " + "I/O Error"
  {
    var e := ThreeContexts().error;
    assert Lines(e) == ["Failed to start the program", "Failed to load configuration", "Failed to read file", "I/O Error"];
    RenderIsJoin(e);
    JoinFour("Failed to start the program", "Failed to load configuration", "Failed to read file", "I/O Error");
  }

  /** `test_option_single_reason`: `None` with a context renders as the context alone. */
  lemma OptionSingleReason()
    ensures OptionContext.WithErrContext<()>(None, "Configuration value not found").Err?
    ensures Render(OptionContext.WithErrContext<()>(None, "Configuration value not found").error) ==
      "Configuration value not found"
  {
  }

  /** `test_functions`: two contexts over a custom I/O error, which ends the text in its debug form. */
  lemma Functions()
    ensures var load := ResultContext.WithErrContext<()>(Result.Err(CustomNotFound), "Failed to load config");
      var run := ResultContext.WithErrContext(ResultContext.AsCause(load), "Failed to start program with config \"./config\"");
      run.Err? &&
      Render(run.error) ==
        "Failed to start program with config \"./config\"" + "\n  caused by: " + "Failed to load config" + "\n  caused by: " + "Custom { kind: NotFound, error: \"Test message\" }"
  {
    var load := ResultContext.WithErrContext<()>(Result.Err(CustomNotFound), "Failed to load config");
    var run := ResultContext.WithErrContext(ResultContext.AsCause(load), "Failed to start program with config \"./config\"");
    assert Lines(run.error) == ["Failed to start program with config \"./config\"", "Failed to load config", CustomNotFound.debugText];
    RenderIsJoin(run.error);
    JoinThree("Failed to start program with config \"./config\"", "Failed to load config", CustomNotFound.debugText);
  }

  /** Three levels joined by the separator, written left to right. */
  lemma JoinThree(a: string, b: string, c: string)
    ensures JoinLines([a, b, c]) == a + "\n  caused by: " + b + "\n  caused by: " + c
  {
    var sep := CausedBy;
    assert sep == "\n  caused by: ";
    assert [a, b, c][1..] == [b, c];
    assert [b, c][1..] == [c];
    assert JoinLines([b, c]) == b + sep + c;
    assert JoinLines([a, b, c]) == a + sep + (b + sep + c);
    assert a + sep + (b + sep + c) == a + sep + b + sep + c;
  }

  /** Four levels joined by the separator, written left to right. */
  lemma JoinFour(a: string, b: string, c: string, d: string)
    ensures JoinLines([a, b, c, d]) == a + "\n  caused by: " + b + "\n  caused by: " + c + "\n  caused by: " + d
  {
    var sep := CausedBy;
    assert sep == "\n  caused by: ";
    assert [a, b, c, d][1..] == [b, c, d];
    JoinThree(b, c, d);
    assert JoinLines([a, b, c, d]) == a + sep + (b + sep + c + sep + d);
    assert a + sep + (b + sep + c + sep + d) == a + sep + b + sep + c + sep + d;
  }

  /** A chain of three nodes over a foreign error renders as the four texts joined by the separator. */
  lemma RenderThreeOverForeign(a: string, b: string, c: string, debugText: string, displayText: string)
    ensures Render(WithContext(a, Chain(WithContext(b, Chain(WithContext(c, Foreign(debugText, displayText)))))))
      == a + "\n  caused by: " + b + "\n  caused by: " + c + "\n  caused by: " + debugText
  {
    var e := WithContext(a, Chain(WithContext(b, Chain(WithContext(c, Foreign(debugText, displayText))))));
    assert Lines(e) == [a, b, c, debugText];
    RenderIsJoin(e);
    JoinFour(a, b, c, debugText);
  }

  /** The first example of the crate documentation: one lazy and two eager contexts over an I/O error. */
  method StartProgram() returns (out: Result<(), ErrorMessage>, producerCalls: nat)
    ensures producerCalls == 1
    ensures out.Err?
    ensures Render(out.error) ==
      "Failed to start the program" + "\n  caused by: " + "Failed to load configuration" + "\n  caused by: " + "Failed to read file 'config.json'" + "\n  caused by: " + "Kind(UnexpectedEof)"
  {
    var readFile: Result<(), Cause> := Result.Err(UnexpectedEof);
    var loadConfig;
    loadConfig, producerCalls := ResultContext.WithDynErrContext(readFile, () => "Failed to read file 'config.json'");
    var initProgram := ResultContext.WithErrContext(ResultContext.AsCause(loadConfig), "Failed to load configuration");
    out := ResultContext.WithErrContext(ResultContext.AsCause(initProgram), "Failed to start the program");
    RenderThreeOverForeign("Failed to start the program", "Failed to load configuration",
      "Failed to read file 'config.json'", "Kind(UnexpectedEof)", "unexpected end of file");
  }

  /** The eager examples for `Option` and `Result`. */
  lemma EagerExamples()
    ensures Render(OptionContext.WithErrContext<()>(None, "Something went wrong in function 'produce_none'").error) ==
      "Something went wrong in function 'produce_none'"
    ensures Render(ResultContext.WithErrContext<()>(Result.Err(UnexpectedEof), "Something went wrong in function 'produce_err'").error) ==
      "Something went wrong in function 'produce_err'" + "\n  caused by: " + "Kind(UnexpectedEof)"
  {
  }

  /** The lazy examples for `Option` and `Result`: the producer's text is the outer message. */
  method LazyExamples() returns (noneText: string, errText: string, producerCalls: nat)
    ensures noneText == "Something went wrong in function 'produce_none'. Extra info: Test"
    ensures errText == "Something went wrong in function 'produce_err'. Extra info: Test" + "\n  caused by: " + "Kind(UnexpectedEof)"
    ensures producerCalls == 2
  {
    var variable := "Test";
    var none, c1 := OptionContext.WithDynErrContext<()>(None, () => "Something went wrong in function 'produce_none'. Extra info: " + variable);
    var err, c2 := ResultContext.WithDynErrContext<()>(Result.Err(UnexpectedEof), () => "Something went wrong in function 'produce_err'. Extra info: " + variable);
    var noneMessage := "Something went wrong in function 'produce_none'. Extra info: " + variable;
    var errMessage := "Something went wrong in function 'produce_err'. Extra info: " + variable;
    assert noneMessage == "Something went wrong in function 'produce_none'. Extra info: Test";
    assert errMessage == "Something went wrong in function 'produce_err'. Extra info: Test";
    assert none.error == New(noneMessage);
    assert err.error == WithContext(errMessage, UnexpectedEof);
    ForeignCauseIsTerminal(errMessage, "Kind(UnexpectedEof)", "unexpected end of file");
    assert CausedBy == "\n  caused by: ";
    noneText, errText, producerCalls := Render(none.error), Render(err.error), c1 + c2;
  }

  /** The `Ok` path never runs the producer. */
  method SuccessSkipsProducer() returns (out: Result<int, ErrorMessage>, producerCalls: nat)
    ensures out == Ok(42) && producerCalls == 0
  {
    out, producerCalls := ResultContext.WithDynErrContext(Ok(42), () => "never built");
  }

  /** The boolean examples: `false` with `error_if_false` fails with exactly the message. */
  method BooleanExamples() returns (eagerText: string, lazyText: string)
    ensures eagerText == "Expected file to exist!"
    ensures lazyText == "Expected file 'test.file' to exist!"
  {
    var fileExists := false;
    var eager := BooleanErrors.ErrorIfFalse(fileExists, "Expected file to exist!");
    var lazy, _ := BooleanErrors.ErrorDynIfFalse(fileExists, () => "Expected file '" + "test.file" + "' to exist!");
    var eagerNegated := BooleanErrors.ErrorIfTrue(!fileExists, "Expected file to exist!");
    assert eagerNegated == eager;
    eagerText, lazyText := Render(eager.error), Render(lazy.error);
  }

  /** The real-world example: the struct dump used when `pretty_debug_errors` is off. */
  lemma RealWorldDebug()
    ensures var spawn := ResultContext.WithErrContext<()>(Result.Err(NoSuchFile), "Failed to spawn process");
      var run := ResultContext.WithErrContext(ResultContext.AsCause(spawn), "Failed to run command 'swaynsg' with args [\"-t\", \"get_outputs\"]");
      var outputs := ResultContext.WithErrContext(ResultContext.AsCause(run), "Failed to get outputs");
      outputs.Err? &&
      DebugFmt(outputs.error, false) ==
        StructDump(ErrorMessageStruct("Failed to get outputs",
          NestedNode(ErrorMessageStruct("Failed to run command 'swaynsg' with args [\"-t\", \"get_outputs\"]",
            NestedNode(ErrorMessageStruct("Failed to spawn process",
              SomeForeign("Os { code: 2, kind: NotFound, message: \"No such file or directory\" }")))))))
  {
  }

  /** `test_serialize` and the serialization doctest: the foreign leaf uses its display text. */
  lemma SerializeNotFound()
    ensures var r := ResultContext.WithErrContext<()>(Result.Err(NotFound), "Failed to read file");
      var r2 := ResultContext.WithErrContext(ResultContext.AsCause(r), "Failed to load configuration");
      var r3 := ResultContext.WithErrContext(ResultContext.AsCause(r2), "Failed to start the program");
      r3.Err? &&
      Serde.ToJson(r3.error) ==
        Serde.SerNode("Failed to start the program", Some(
          Serde.SerNode("Failed to load configuration", Some(
            Serde.SerNode("Failed to read file", Some(
              Serde.SerNode("entity not found", None)))))))
  {
  }

  /** `test_serialize_custom_base_error`: a chain of `ErrorMessage`s serializes level by level. */
  lemma SerializeCustomBase()
    ensures ThreeContexts().Err?
    ensures Serde.ToJson(ThreeContexts().error) ==
      Serde.SerNode("Failed to start the program", Some(
        Serde.SerNode("Failed to load configuration", Some(
          Serde.SerNode("Failed to read file", Some(
            Serde.SerNode("I/O Error", None)))))))
  {
  }
}
