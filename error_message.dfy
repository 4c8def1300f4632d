/**
 * The `ErrorMessage` chain node of src/error_message.rs: a message and an
 * optional owned cause, its three constructors, and its two renderings
 * (the flat "caused by" text of `Display` and the nested `Debug` form).
 *
 * Rust finds out at render time whether a boxed cause is another
 * `ErrorMessage` (`downcast_ref`); here the cause carries that answer as a
 * tag. A foreign cause is opaque apart from the two texts the library asks
 * of it: its `Debug` text (used by the flat rendering and by `Debug`) and
 * its `Display` text (used by serialization).
 */
module ErrorMessages {
  import opened Wrappers

  datatype ErrorMessage = EM(message: string, cause: Option<Cause>)

  datatype Cause =
    | Chain(node: ErrorMessage)
    | Foreign(debugText: string, displayText: string)

  /** The part of the separator that follows its line break. */
  const Indent: string := "  caused by: "

  /** The literal written before every cause: `"\n  caused by: "`. */
  const CausedBy: string := "\n" + Indent

  // ---------------------------------------------------------------------
  // Constructors
  // ---------------------------------------------------------------------

  /** `ErrorMessage::new`: a node without a cause; it renders as its message. */
  function New(message: string): (e: ErrorMessage)
    ensures e.cause.None? && e.message == message
    ensures Render(e) == message
    ensures Depth(e) == 1
  {
    EM(message, None)
  }

  /** `ErrorMessage::err`: the failure of a causeless node. */
  function Err<T>(message: string): (r: Result<T, ErrorMessage>)
    ensures r.Err? && r.error == New(message)
    ensures Render(r.error) == message
  {
    Result.Err(EM(message, None))
  }

  /** `ErrorMessage::with_context`: a node that owns `cause`. */
  function WithContext(message: string, cause: Cause): (e: ErrorMessage)
    ensures e.message == message && e.cause == Some(cause)
    ensures Render(e) == message + CausedBy + CauseText(cause)
    ensures Lines(e) == [message] + CauseLines(cause)
    ensures Depth(e) == CauseDepth(cause) + 1
  {
    EM(message, Some(cause))
  }

  // ---------------------------------------------------------------------
  // Flat rendering (`Display::fmt` and `fmt_cause`)
  // ---------------------------------------------------------------------

  /** `Display::fmt`: the message, then the cause if there is one. */
  function Render(e: ErrorMessage): (r: string)
    ensures e.message <= r
    ensures |r| > |e.message| <==> e.cause.Some?
    decreases e, 1
  {
    e.message + match e.cause
                case None => ""
                case Some(c) => FmtCause(c)
  }

  /**
   * `fmt_cause`: the separator, then either the nested node's message and
   * its own cause, or the foreign error's debug text, which ends the chain.
   */
  function FmtCause(c: Cause): (r: string)
    ensures CausedBy <= r
    decreases c, 0
  {
    CausedBy + match c
               case Chain(n) =>
                 n.message + (match n.cause
                              case None => ""
                              case Some(inner) => FmtCause(inner))
               case Foreign(debugText, _) => debugText
  }

  /** What follows a separator for a cause: the nested rendering or the debug text. */
  function CauseText(c: Cause): string
  {
    match c
    case Chain(n) => Render(n)
    case Foreign(debugText, _) => debugText
  }

  /** `fmt_cause` is the separator followed by the cause's own text. */
  lemma FmtCauseIsSeparatorThenText(c: Cause)
    ensures FmtCause(c) == CausedBy + CauseText(c)
  {
  }

  // ---------------------------------------------------------------------
  // The chain as a list of levels
  // ---------------------------------------------------------------------

  /** Number of levels in the chain; a foreign cause is one level. */
  function Depth(e: ErrorMessage): nat
    decreases e, 1
  {
    1 + match e.cause
        case None => 0
        case Some(c) => CauseDepth(c)
  }

  function CauseDepth(c: Cause): nat
    decreases c, 0
  {
    match c
    case Chain(n) => Depth(n)
    case Foreign(_, _) => 1
  }

  /** The texts of the levels, outermost first, as the flat rendering shows them. */
  function Lines(e: ErrorMessage): seq<string>
    decreases e, 1
  {
    [e.message] + match e.cause
                  case None => []
                  case Some(c) => CauseLines(c)
  }

  function CauseLines(c: Cause): seq<string>
    decreases c, 0
  {
    match c
    case Chain(n) => Lines(n)
    case Foreign(debugText, _) => [debugText]
  }

  /** The messages of the `ErrorMessage` nodes alone, outermost first. */
  function Messages(e: ErrorMessage): seq<string>
  {
    [e.message] + match e.cause
                  case Some(Chain(n)) => Messages(n)
                  case _ => []
  }

  /** The foreign error the chain ends in, if it ends in one. */
  function Leaf(e: ErrorMessage): (r: Option<Cause>)
    ensures r.None? || r.value.Foreign?
  {
    match e.cause
    case None => None
    case Some(Chain(n)) => Leaf(n)
    case Some(f) => Some(f)
  }

  /** The lines of the flat rendering are the node messages, then the foreign debug text. */
  lemma {:induction false} LinesAreMessagesThenLeaf(e: ErrorMessage)
    ensures Lines(e) == Messages(e) + (if Leaf(e).Some? then [Leaf(e).value.debugText] else [])
  {
    match e.cause
    case None =>
    case Some(Chain(n)) =>
      LinesAreMessagesThenLeaf(n);
    case Some(Foreign(_, _)) =>
  }

  /** One line per level. */
  lemma {:induction false} LinesCountLevels(e: ErrorMessage)
    ensures |Lines(e)| == Depth(e)
    decreases e
  {
    match e.cause
    case None =>
    case Some(Chain(n)) =>
      LinesCountLevels(n);
    case Some(Foreign(_, _)) =>
  }

  /** `k` strings separated by `k - 1` copies of `CausedBy`. */
  function JoinLines(lines: seq<string>): string
  {
    if |lines| == 0 then ""
    else if |lines| == 1 then lines[0]
    else lines[0] + CausedBy + JoinLines(lines[1..])
  }

  /**
   * The flat rendering is the levels' texts, outermost first, joined by
   * the separator: nothing is dropped, repeated or reordered.
   */
  lemma {:induction false} RenderIsJoin(e: ErrorMessage)
    ensures Render(e) == JoinLines(Lines(e))
    decreases e
  {
    match e.cause
    case None =>
    case Some(Foreign(d, _)) =>
      assert Lines(e) == [e.message, d];
    case Some(Chain(n)) =>
      RenderIsJoin(n);
      LinesCountLevels(n);
      var ls := Lines(n);
      assert Lines(e) == [e.message] + ls;
      assert ([e.message] + ls)[1..] == ls;
  }

  /**
   * The flat rendering starts with the node's message verbatim, and it is
   * more than the message if and only if the node has a cause.
   */
  lemma RenderStartsWithMessage(e: ErrorMessage)
    ensures e.message <= Render(e)
    ensures Render(e) == e.message <==> e.cause.None?
    ensures e.cause.Some? ==> Render(e) == e.message + CausedBy + CauseText(e.cause.value)
  {
    if e.cause.Some? {
      var rest := FmtCause(e.cause.value);
      assert |rest| >= |CausedBy|;
      assert |Render(e)| == |e.message| + |rest|;
    }
  }

  /** Wrapping a node puts the new message first and keeps the old levels in order. */
  lemma WrappedChainOutermostFirst(m: string, n: ErrorMessage)
    ensures Render(WithContext(m, Chain(n))) == m + CausedBy + Render(n)
    ensures Lines(WithContext(m, Chain(n))) == [m] + Lines(n)
    ensures Messages(WithContext(m, Chain(n))) == [m] + Messages(n)
  {
  }

  /** A foreign cause is the last level: its debug text is written once and nothing follows. */
  lemma ForeignCauseIsTerminal(m: string, debugText: string, displayText: string)
    ensures Render(WithContext(m, Foreign(debugText, displayText))) == m + CausedBy + debugText
    ensures Lines(WithContext(m, Foreign(debugText, displayText))) == [m, debugText]
    ensures Leaf(WithContext(m, Foreign(debugText, displayText))) == Some(Foreign(debugText, displayText))
  {
  }

  // ---------------------------------------------------------------------
  // Counting separators
  // ---------------------------------------------------------------------

  predicate NoLineBreak(s: string)
  {
    '\n' !in s
  }

  predicate AllWithoutLineBreak(lines: seq<string>)
  {
    forall i :: 0 <= i < |lines| ==> NoLineBreak(lines[i])
  }

  /** Joining `k` line-free texts writes exactly `k - 1` line breaks. */
  lemma {:induction false} JoinLinesLineBreaks(lines: seq<string>)
    requires |lines| > 0 && AllWithoutLineBreak(lines)
    ensures multiset(JoinLines(lines))['\n'] == |lines| - 1
  {
    if |lines| > 1 {
      var rest := JoinLines(lines[1..]);
      JoinLinesLineBreaks(lines[1..]);
      assert NoLineBreak(lines[0]);
      assert multiset(CausedBy)['\n'] == 1 by {
        assert NoLineBreak(Indent);
        assert multiset(CausedBy) == multiset("\n") + multiset(Indent);
      }
      assert JoinLines(lines) == lines[0] + CausedBy + rest;
      assert multiset(lines[0] + CausedBy + rest) == multiset(lines[0]) + multiset(CausedBy) + multiset(rest);
    } else {
      assert NoLineBreak(lines[0]);
    }
  }

  /**
   * When no message and no foreign debug text contains a line break, a
   * chain of `k` levels renders with exactly `k - 1` line breaks, one per
   * separator the rendering writes.
   */
  lemma SeparatorCount(e: ErrorMessage)
    requires AllWithoutLineBreak(Lines(e))
    ensures multiset(Render(e))['\n'] == Depth(e) - 1
  {
    RenderIsJoin(e);
    LinesCountLevels(e);
    JoinLinesLineBreaks(Lines(e));
  }

  // ---------------------------------------------------------------------
  // Reading the flat text back
  // ---------------------------------------------------------------------

  /** Splits a text at every line break. */
  function SplitLines(s: string): (r: seq<string>)
    ensures |r| >= 1
  {
    if |s| == 0 then [""]
    else
      var rest := SplitLines(s[1..]);
      if s[0] == '\n' then [""] + rest
      else [[s[0]] + rest[0]] + rest[1..]
  }

  /** Removes the separator's indentation from the start of every line but the first. */
  function Unindent(lines: seq<string>): seq<string>
  {
    if |lines| == 0 then []
    else
      var l := lines[0];
      [if Indent <= l then l[|Indent|..] else l] + Unindent(lines[1..])
  }

  function Indented(lines: seq<string>): seq<string>
  {
    if |lines| == 0 then [] else [Indent + lines[0]] + Indented(lines[1..])
  }

  /** Reads a flat rendering back into the texts of its levels. */
  function ParseRendered(s: string): (r: seq<string>)
    ensures |r| >= 1
  {
    var parts := SplitLines(s);
    [parts[0]] + Unindent(parts[1..])
  }

  lemma {:induction false} SplitLinesPrefix(p: string, y: string)
    requires NoLineBreak(p)
    ensures SplitLines(p + y) == [p + SplitLines(y)[0]] + SplitLines(y)[1..]
    decreases |p|
  {
    if |p| > 0 {
      SplitLinesPrefix(p[1..], y);
      assert (p + y)[1..] == p[1..] + y;
      assert (p + y)[0] == p[0];
      assert [p[0]] + (p[1..] + SplitLines(y)[0]) == p + SplitLines(y)[0];
    } else {
      var ys := SplitLines(y);
      assert p + y == y;
      assert p + ys[0] == ys[0];
      assert ys == [ys[0]] + ys[1..];
    }
  }

  lemma {:induction false} SplitLinesAtBreak(x: string, y: string)
    requires NoLineBreak(x)
    ensures SplitLines(x + "\n" + y) == [x] + SplitLines(y)
  {
    SplitLinesPrefix(x, "\n" + y);
    assert ("\n" + y)[0] == '\n';
    assert ("\n" + y)[1..] == y;
    assert SplitLines("\n" + y) == [""] + SplitLines(y);
    assert x + "" == x;
    assert x + "\n" + y == x + ("\n" + y);
  }

  lemma {:induction false} UnindentIndented(lines: seq<string>)
    ensures Unindent(Indented(lines)) == lines
  {
    if |lines| > 0 {
      UnindentIndented(lines[1..]);
      assert Indent <= Indent + lines[0];
      assert (Indent + lines[0])[|Indent|..] == lines[0];
    }
  }

  lemma {:induction false} SplitJoinLines(lines: seq<string>)
    requires |lines| > 0 && AllWithoutLineBreak(lines)
    ensures SplitLines(JoinLines(lines)) == [lines[0]] + Indented(lines[1..])
  {
    assert NoLineBreak(lines[0]);
    if |lines| == 1 {
      SplitLinesPrefix(lines[0], "");
      assert lines[0] + "" == lines[0];
    } else {
      var rest := lines[1..];
      var j := JoinLines(rest);
      SplitJoinLines(rest);
      assert JoinLines(lines) == lines[0] + "\n" + (Indent + j);
      SplitLinesAtBreak(lines[0], Indent + j);
      SplitLinesPrefix(Indent, j);
      assert rest[1..] == lines[2..];
    }
  }

  /** `ParseRendered` undoes `JoinLines` for texts without line breaks. */
  lemma ParseJoinLines(lines: seq<string>)
    requires |lines| > 0 && AllWithoutLineBreak(lines)
    ensures ParseRendered(JoinLines(lines)) == lines
  {
    SplitJoinLines(lines);
    UnindentIndented(lines[1..]);
  }

  /**
   * When no level's text contains a line break, the flat rendering
   * determines the levels: reading it back gives every message, outermost
   * first, then the foreign debug text if there is one.
   */
  lemma RenderParsesBack(e: ErrorMessage)
    requires AllWithoutLineBreak(Lines(e))
    ensures ParseRendered(Render(e)) == Lines(e)
  {
    RenderIsJoin(e);
    ParseJoinLines(Lines(e));
  }

  // ---------------------------------------------------------------------
  // Debug output
  // ---------------------------------------------------------------------

  /**
   * What `debug_struct("ErrorMessage")` is given: the message field and a
   * cause field holding a nested node, `Some(<foreign debug text>)` or `None`.
   */
  datatype DebugStruct = ErrorMessageStruct(message: string, cause: DebugField)

  datatype DebugField =
    | NestedNode(node: DebugStruct)
    | SomeForeign(debugText: string)
    | NoneCause

  /** The output of `Debug::fmt`, depending on the `pretty_debug_errors` feature. */
  datatype DebugOutput = PrettyText(text: string) | StructDump(fields: DebugStruct)

  /** The `Debug` implementation chosen when `pretty_debug_errors` is off. */
  function DebugStructOf(e: ErrorMessage): (d: DebugStruct)
    ensures d.message == e.message
    ensures StructDepth(d) == Depth(e)
  {
    ErrorMessageStruct(e.message,
      match e.cause
      case None => NoneCause
      case Some(Chain(n)) => NestedNode(DebugStructOf(n))
      case Some(Foreign(d, _)) => SomeForeign(d))
  }

  /** `Debug::fmt` under either setting of `pretty_debug_errors`. */
  function DebugFmt(e: ErrorMessage, prettyDebugErrors: bool): (out: DebugOutput)
    ensures out.PrettyText? <==> prettyDebugErrors
    ensures out.PrettyText? ==> e.message <= out.text
    ensures out.StructDump? ==> out.fields.message == e.message && StructDepth(out.fields) == Depth(e)
  {
    if prettyDebugErrors then PrettyText(Render(e)) else StructDump(DebugStructOf(e))
  }

  function StructDepth(d: DebugStruct): nat
  {
    1 + match d.cause
        case NestedNode(n) => StructDepth(n)
        case SomeForeign(_) => 1
        case NoneCause => 0
  }

  /** Reads the flat text off a debug struct, level by level. */
  function StructFlatText(d: DebugStruct): string
  {
    d.message + match d.cause
                case NestedNode(n) => CausedBy + StructFlatText(n)
                case SomeForeign(t) => CausedBy + t
                case NoneCause => ""
  }

  /**
   * With `pretty_debug_errors` on, `Debug` prints the flat text; with it
   * off, the struct dump has one nesting level per chain level and holds
   * the same texts in the same order as the flat text. The depth clause
   * restates `DebugStructOf`'s own postcondition so that the three facts
   * can be read together.
   */
  lemma {:induction false} DebugAgreesWithDisplay(e: ErrorMessage)
    ensures DebugFmt(e, true) == PrettyText(Render(e))
    ensures StructDepth(DebugStructOf(e)) == Depth(e)
    ensures StructFlatText(DebugStructOf(e)) == Render(e)
    decreases e
  {
    match e.cause
    case None =>
    case Some(Foreign(_, _)) =>
    case Some(Chain(n)) =>
      DebugAgreesWithDisplay(n);
      FmtCauseIsSeparatorThenText(Chain(n));
  }

  /**
   * The struct dump's cause field: the nested node, `Some(<debug text>)`
   * holding the foreign error's own `Debug` text, or `None`.
   */
  lemma DebugCauseField(e: ErrorMessage)
    ensures DebugFmt(e, false).StructDump?
    ensures DebugFmt(e, false).fields.message == e.message
    ensures e.cause.None? <==> DebugFmt(e, false).fields.cause.NoneCause?
    ensures forall n :: e.cause == Some(Chain(n)) ==> DebugFmt(e, false).fields.cause == NestedNode(DebugStructOf(n))
    ensures (e.cause.Some? && e.cause.value.Foreign?) <==> DebugFmt(e, false).fields.cause.SomeForeign?
    ensures forall d, t :: e.cause == Some(Foreign(d, t)) ==> DebugFmt(e, false).fields.cause == SomeForeign(d)
    ensures DebugFmt(e, false) == StructDump(DebugStructOf(e))
  {
  }
}
