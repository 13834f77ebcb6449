/**
 * The message and content-block records the tool-call loop yields
 * (adapters shaped like the Claude agent SDK's types).
 */
module GeminiTypes {

  /**
   * A JSON-like argument value, as produced from a function call's arguments.
   * Only the shapes the file tools and Bash read are distinguished: the
   * endpoint sends numbers as doubles and may send null or nested objects,
   * which only the opaque search and feature tools and `Env.badValue` see,
   * so `Int` stands for any number and the other shapes are not modelled.
   */
  datatype Value = Str(s: string) | Int(i: int) | Bool(b: bool) | List(items: seq<Value>)

  /** A tool call's argument mapping: keyword name to value. */
  type Args = map<string, Value>

  /** Prose written by the model. */
  datatype TextBlock = TextBlock(text: string)

  /** A tool call: the tool's name, its arguments and the call identifier. */
  datatype ToolUseBlock = ToolUseBlock(name: string, input: Args, id: string)

  /** The answer to the tool call whose identifier is `toolUseId`; not an error unless said so. */
  datatype ToolResultBlock = ToolResultBlock(toolUseId: string, content: string, isError: bool := false)

  /** What an assistant message may hold: `Union[TextBlock, ToolUseBlock]`. */
  datatype AssistantBlock = TextPart(textBlock: TextBlock) | ToolUsePart(toolUse: ToolUseBlock)

  /** A message from the model; empty unless given content. */
  datatype AssistantMessage = AssistantMessage(content: seq<AssistantBlock> := [])

  /** A message carrying tool results back; empty unless given content. */
  datatype UserMessage = UserMessage(content: seq<ToolResultBlock> := [])

  /** One element of the stream the loop yields. */
  datatype Message = Assistant(assistant: AssistantMessage) | User(user: UserMessage)

  /** The tool calls of an assistant message, in order. */
  function ToolUses(blocks: seq<AssistantBlock>): (r: seq<ToolUseBlock>)
    ensures |r| <= |blocks|
  {
    if blocks == [] then []
    else
      var rest := ToolUses(blocks[..|blocks| - 1]);
      match blocks[|blocks| - 1]
      case TextPart(_) => rest
      case ToolUsePart(u) => rest + [u]
  }

  /** The tool calls of a message are exactly its tool-use blocks. */
  lemma {:induction false} ToolUsesMembers(blocks: seq<AssistantBlock>)
    ensures forall u :: u in ToolUses(blocks) <==> ToolUsePart(u) in blocks
    decreases |blocks|
  {
    if blocks != [] {
      var init := blocks[..|blocks| - 1];
      ToolUsesMembers(init);
      assert blocks == init + [blocks[|blocks| - 1]];
    }
  }

  /** Appending a block extends the tool calls by that block's call, if it is one. */
  lemma ToolUsesSnoc(blocks: seq<AssistantBlock>, b: AssistantBlock)
    ensures ToolUses(blocks + [b]) == ToolUses(blocks) + (if b.ToolUsePart? then [b.toolUse] else [])
  {
    assert (blocks + [b])[..|blocks|] == blocks;
  }

  /** Whether `results` answers `calls`: one result per call, in the same order, with the call's identifier. */
  predicate Answers(results: seq<ToolResultBlock>, calls: seq<ToolUseBlock>) {
    |results| == |calls| && forall k :: 0 <= k < |calls| ==> results[k].toolUseId == calls[k].id
  }

  /** A result built without an explicit flag is not an error; messages built without content are empty. */
  lemma Defaults(id: string, content: string)
    ensures !ToolResultBlock(id, content).isError
    ensures AssistantMessage().content == [] && UserMessage().content == []
  {
  }
}
