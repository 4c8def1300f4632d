/**
 * `Serialize for ErrorMessage` (src/serde.rs): every node becomes a struct
 * with exactly the two fields `message` and `cause`, in that order.
 *
 * `SerStruct` is what the code hands to the serializer. Its `cause` field
 * keeps the three shapes the code passes apart: a nested node as a bare
 * struct, a foreign cause as `Some(struct)` and no cause as `None`.
 * `SerNode` is the JSON view of it, where `Some(x)` is written as `x` and
 * `None` as `null`, so that every `cause` is null or another such object.
 */
module Serde {
  import opened Wrappers
  import opened ErrorMessages

  /** The struct given to `serialize_struct("ErrorMessage", 2)`. */
  datatype SerStruct = SerStruct(message: string, cause: SerField)

  /** The value given to `serialize_field("cause", ..)`. */
  datatype SerField =
    | NestedStruct(node: SerStruct)
    | SomeStruct(node: SerStruct)
    | NullCause

  /** The JSON object; `cause == None` is `"cause": null`. */
  datatype SerNode = SerNode(message: string, cause: Option<SerNode>)

  /**
   * A nested node is serialized as itself; a foreign cause as
   * `Some(ErrorMessage::new(cause.to_string()))`, a causeless node holding
   * its display text; no cause as `None`.
   */
  function Serialize(e: ErrorMessage): (s: SerStruct)
    ensures s.message == e.message
    ensures SerDepth(JsonTree(s)) == Depth(e)
  {
    SerStruct(e.message,
      match e.cause
      case None => NullCause
      case Some(Chain(n)) => NestedStruct(Serialize(n))
      case Some(Foreign(_, displayText)) => SomeStruct(SerStruct(displayText, NullCause)))
  }

  /** How JSON writes the struct: `Some(x)` as `x`, `None` as `null`. */
  function JsonTree(s: SerStruct): SerNode
  {
    SerNode(s.message,
      match s.cause
      case NestedStruct(n) => Some(JsonTree(n))
      case SomeStruct(n) => Some(JsonTree(n))
      case NullCause => None)
  }

  /** The JSON object a node serializes to. */
  function ToJson(e: ErrorMessage): SerNode
  {
    JsonTree(Serialize(e))
  }

  function SerDepth(s: SerNode): nat
  {
    1 + match s.cause
        case None => 0
        case Some(c) => SerDepth(c)
  }

  /** The `message` fields, outermost first. */
  function SerMessages(s: SerNode): seq<string>
  {
    [s.message] + match s.cause
                  case None => []
                  case Some(c) => SerMessages(c)
  }

  /** Reads a serialized tree back as a chain of nodes. */
  function Deserialize(s: SerNode): ErrorMessage
  {
    EM(s.message,
      match s.cause
      case None => None
      case Some(c) => Some(Chain(Deserialize(c))))
  }

  /**
   * Field by field: the nested node as a bare struct, the foreign cause as
   * `Some` of a causeless node holding its display text, no cause as `None`;
   * in JSON the first two are objects and the last is null.
   */
  lemma SerializeFields(e: ErrorMessage)
    ensures Serialize(e).message == e.message && ToJson(e).message == e.message
    ensures Serialize(e).cause.NullCause? <==> e.cause.None?
    ensures ToJson(e).cause.None? <==> e.cause.None?
    ensures forall n :: e.cause == Some(Chain(n)) ==>
      Serialize(e).cause == NestedStruct(Serialize(n)) && ToJson(e).cause == Some(ToJson(n))
    ensures forall d, t :: e.cause == Some(Foreign(d, t)) ==>
      Serialize(e).cause == SomeStruct(Serialize(New(t))) && ToJson(e).cause == Some(SerNode(t, None))
  {
    match e.cause
    case None =>
    case Some(Chain(n)) =>
    case Some(Foreign(_, t)) =>
      assert JsonTree(SerStruct(t, NullCause)) == SerNode(t, None);
  }

  /**
   * The serialized tree has one level per chain level, and the messages
   * match level by level; a foreign leaf contributes its display text.
   */
  lemma {:induction false} SerializeLevels(e: ErrorMessage)
    ensures SerDepth(ToJson(e)) == Depth(e)
    ensures SerMessages(ToJson(e)) ==
      Messages(e) + (if Leaf(e).Some? then [Leaf(e).value.displayText] else [])
    decreases e
  {
    match e.cause
    case None =>
    case Some(Chain(n)) =>
      SerializeLevels(n);
    case Some(Foreign(_, t)) =>
      assert JsonTree(SerStruct(t, NullCause)) == SerNode(t, None);
  }

  /** Every JSON tree is the serialization of the chain it reads back as. */
  lemma {:induction false} SerializeDeserialize(s: SerNode)
    ensures ToJson(Deserialize(s)) == s
  {
    match s.cause
    case None =>
    case Some(c) =>
      SerializeDeserialize(c);
  }

  /** A chain without a foreign leaf survives serialization unchanged. */
  lemma {:induction false} DeserializeSerialize(e: ErrorMessage)
    requires Leaf(e).None?
    ensures Deserialize(ToJson(e)) == e
  {
    match e.cause
    case None =>
    case Some(Chain(n)) =>
      DeserializeSerialize(n);
  }

  /** Reading back keeps the depth and the level-by-level messages of the tree. */
  lemma {:induction false} DeserializeLevels(s: SerNode)
    ensures Depth(Deserialize(s)) == SerDepth(s)
    ensures Messages(Deserialize(s)) == SerMessages(s)
    ensures Leaf(Deserialize(s)).None?
  {
    match s.cause
    case None =>
    case Some(c) =>
      DeserializeLevels(c);
  }
}
