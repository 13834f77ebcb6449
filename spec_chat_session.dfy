/**
 * The spec-creation chat: what the agent SDK streams back becomes chunks
 * for the UI and entries of the conversation history.
 */
module SpecChat {
  import opened Wrappers
  import opened PyStrings
  import opened GeminiTypes

  /** A content block of an SDK assistant message. */
  datatype SdkBlock =
    | SdkText(text: string)
    | SdkToolUse(name: string, input: Args, id: string)
    | SdkOtherBlock

  /** A message of the SDK's response stream. */
  datatype SdkMessage =
    | SdkAssistant(blocks: seq<SdkBlock>)
    | SdkUser(results: seq<ToolResultBlock>)
    | SdkOther

  /** What `receive_response` yields before it ends, and the exception it (or `query`) raises, if any. */
  datatype Stream = Stream(items: seq<SdkMessage>, fault: Option<string>)

  /** A message chunk yielded to the UI. */
  datatype Chunk =
    | TextChunk(content: string)
    | Question(questions: Value, toolId: string)
    | SpecComplete(path: string)
    | FileWritten(path: string)
    | ResponseDone
    | ErrorChunk(content: string)

  datatype Role = UserRole | AssistantRole

  /** An entry of the conversation history (its timestamp is not modelled). */
  datatype Entry = Entry(role: Role, content: string)

  // ---------------------------------------------------------------------
  // str() of an argument value
  // ---------------------------------------------------------------------

  /** `str(v)`. */
  function Display(v: Value): string
    decreases v, 1
  {
    match v
    case Str(s) => s
    case Int(i) => IntStr(i)
    case Bool(b) => if b then "True" else "False"
    case List(items) => "[" + ReprItems(v, items) + "]"
  }

  /** `repr(v)`: strings are quoted, everything else shows as `str`. */
  function Repr(v: Value): string
    decreases v, 2
  {
    if v.Str? then "'" + v.s + "'" else Display(v)
  }

  /** The items of the list `whole`, each as `repr`, separated by ", ". */
  function ReprItems(whole: Value, items: seq<Value>): string
    requires forall x :: x in items ==> x < whole
    decreases whole, 0, |items|
  {
    if items == [] then ""
    else
      assert items[0] in items;
      if |items| == 1 then Repr(items[0])
      else
        assert forall x :: x in items[1..] ==> x in items;
        Repr(items[0]) + ", " + ReprItems(whole, items[1..])
  }

  // ---------------------------------------------------------------------
  // What one response stream amounts to
  // ---------------------------------------------------------------------

  /** The chunks, the assistant history entries, and whether the spec was written. */
  datatype Effect = Effect(chunks: seq<Chunk>, entries: seq<Entry>, completes: bool)

  function Then(a: Effect, b: Effect): Effect {
    Effect(a.chunks + b.chunks, a.entries + b.entries, a.completes || b.completes)
  }

  /** `tool_input.get(key, default)`. */
  function Get(input: Args, key: string, default: Value): Value {
    if key in input then input[key] else default
  }

  /**
   * One assistant block: non-empty text is streamed and stored;
   * `AskUserQuestion` becomes a question; a Write of the spec file
   * completes the session, one of the initializer prompt is reported.
   */
  function BlockEffect(b: SdkBlock): Effect {
    match b
    case SdkText(text) =>
      if text != "" then Effect([TextChunk(text)], [Entry(AssistantRole, text)], false) else Effect([], [], false)
    case SdkToolUse(name, input, id) =>
      if name == "AskUserQuestion" then Effect([Question(Get(input, "questions", List([])), id)], [], false)
      else if name == "Write" then
        var path := Display(Get(input, "file_path", Str("")));
        if Contains(path, "app_spec.txt") then Effect([SpecComplete(path)], [], true)
        else if Contains(path, "initializer_prompt.md") then Effect([FileWritten(path)], [], false)
        else Effect([], [], false)
      else Effect([], [], false)
    case SdkOtherBlock => Effect([], [], false)
  }

  /** The text chunks' contents, in order. */
  function ChunkTexts(cs: seq<Chunk>): seq<string> {
    if cs == [] then []
    else (if cs[0].TextChunk? then [cs[0].content] else []) + ChunkTexts(cs[1..])
  }

  /** The entries' contents, in order. */
  function EntryTexts(es: seq<Entry>): seq<string> {
    if es == [] then [] else [es[0].content] + EntryTexts(es[1..])
  }

  lemma {:induction false} ChunkTextsAppend(a: seq<Chunk>, b: seq<Chunk>)
    ensures ChunkTexts(a + b) == ChunkTexts(a) + ChunkTexts(b)
  {
    if a == [] {
      assert a + b == b;
    } else {
      assert (a + b)[1..] == a[1..] + b;
      ChunkTextsAppend(a[1..], b);
    }
  }

  lemma {:induction false} EntryTextsAppend(a: seq<Entry>, b: seq<Entry>)
    ensures EntryTexts(a + b) == EntryTexts(a) + EntryTexts(b)
  {
    if a == [] {
      assert a + b == b;
    } else {
      assert (a + b)[1..] == a[1..] + b;
      EntryTextsAppend(a[1..], b);
    }
  }

  /** History entries are assistant entries of non-empty text, one per text chunk and with the same contents. */
  predicate TextsMatch(e: Effect) {
    && ChunkTexts(e.chunks) == EntryTexts(e.entries)
    && (forall k :: 0 <= k < |e.entries| ==> e.entries[k].role == AssistantRole && e.entries[k].content != "")
  }

  /** Some chunk is a `spec_complete` chunk. */
  predicate HasSpecComplete(cs: seq<Chunk>) {
    exists k :: 0 <= k < |cs| && cs[k].SpecComplete?
  }

  /** Completion chunks name the spec file; file-written chunks name the initializer prompt and not the spec file. */
  predicate PathsRight(cs: seq<Chunk>) {
    && (forall k :: 0 <= k < |cs| && cs[k].SpecComplete? ==> Contains(cs[k].path, "app_spec.txt"))
    && (forall k :: 0 <= k < |cs| && cs[k].FileWritten? ==>
          Contains(cs[k].path, "initializer_prompt.md") && !Contains(cs[k].path, "app_spec.txt"))
  }

  /** No chunk ends the response. */
  predicate NoTerminal(cs: seq<Chunk>) {
    forall k :: 0 <= k < |cs| ==> !cs[k].ResponseDone? && !cs[k].ErrorChunk?
  }

  /**
   * The invariant an effect keeps: the history matches the text chunks; the
   * spec is complete exactly when a `spec_complete` chunk was produced; the
   * chunks' paths are right; nothing ends the response early.
   */
  predicate WellFormed(e: Effect) {
    && TextsMatch(e)
    && (e.completes <==> HasSpecComplete(e.chunks))
    && PathsRight(e.chunks)
    && NoTerminal(e.chunks)
  }

  lemma ThenTextsMatch(a: Effect, b: Effect)
    requires TextsMatch(a) && TextsMatch(b)
    ensures TextsMatch(Then(a, b))
  {
    ChunkTextsAppend(a.chunks, b.chunks);
    EntryTextsAppend(a.entries, b.entries);
    var e := a.entries + b.entries;
    forall k | |a.entries| <= k < |e|
      ensures e[k] == b.entries[k - |a.entries|]
    {
    }
  }

  lemma HasSpecCompleteAppend(a: seq<Chunk>, b: seq<Chunk>)
    ensures HasSpecComplete(a + b) <==> HasSpecComplete(a) || HasSpecComplete(b)
  {
    var c := a + b;
    if HasSpecComplete(b) {
      var k :| 0 <= k < |b| && b[k].SpecComplete?;
      assert c[|a| + k] == b[k];
    }
    if HasSpecComplete(a) {
      var k :| 0 <= k < |a| && a[k].SpecComplete?;
      assert c[k] == a[k];
    }
    if HasSpecComplete(c) {
      var k :| 0 <= k < |c| && c[k].SpecComplete?;
      if k < |a| {
        assert c[k] == a[k];
      } else {
        assert c[k] == b[k - |a|];
      }
    }
  }

  lemma PathsRightAppend(a: seq<Chunk>, b: seq<Chunk>)
    requires PathsRight(a) && PathsRight(b)
    ensures PathsRight(a + b)
    ensures NoTerminal(a) && NoTerminal(b) ==> NoTerminal(a + b)
  {
    var c := a + b;
    forall k | |a| <= k < |c|
      ensures c[k] == b[k - |a|]
    {
    }
  }

  lemma ThenWellFormed(a: Effect, b: Effect)
    requires WellFormed(a) && WellFormed(b)
    ensures WellFormed(Then(a, b))
  {
    ThenTextsMatch(a, b);
    HasSpecCompleteAppend(a.chunks, b.chunks);
    PathsRightAppend(a.chunks, b.chunks);
  }

  lemma BlockWellFormed(b: SdkBlock)
    ensures WellFormed(BlockEffect(b))
  {
    var e := BlockEffect(b);
    assert TextsMatch(e) by {
      if |e.chunks| == 1 {
        assert e.chunks[1..] == [];
      }
      if |e.entries| == 1 {
        assert e.entries[1..] == [];
      }
    }
    if e.completes {
      assert e.chunks[0].SpecComplete?;
    }
  }

  /** The blocks of one assistant message, in order. */
  function BlocksEffect(bs: seq<SdkBlock>): Effect {
    if bs == [] then Effect([], [], false)
    else Then(BlocksEffect(bs[..|bs| - 1]), BlockEffect(bs[|bs| - 1]))
  }

  /** One stream message: assistant messages yield chunks; tool results and anything else yield nothing. */
  function MessageEffect(m: SdkMessage): Effect {
    if m.SdkAssistant? then BlocksEffect(m.blocks) else Effect([], [], false)
  }

  /** What `_query_claude` makes of the stream messages, in order. */
  function StreamEffect(items: seq<SdkMessage>): Effect {
    if items == [] then Effect([], [], false)
    else Then(StreamEffect(items[..|items| - 1]), MessageEffect(items[|items| - 1]))
  }

  /** Recording `a` and then `b` on top of a history and a flag is recording `Then(a, b)`. */
  lemma Extend(m0: seq<Entry>, c0: bool, a: Effect, b: Effect)
    ensures Then(a, b).chunks == a.chunks + b.chunks
    ensures m0 + Then(a, b).entries == m0 + a.entries + b.entries
    ensures (c0 || Then(a, b).completes) == ((c0 || a.completes) || b.completes)
  {
  }

  /** One more block, one more step of `BlocksEffect`. */
  lemma BlocksStep(bs: seq<SdkBlock>, j: nat)
    requires j < |bs|
    ensures BlocksEffect(bs[..j + 1]) == Then(BlocksEffect(bs[..j]), BlockEffect(bs[j]))
  {
    assert bs[..j + 1][..j] == bs[..j];
  }

  /** One more stream message, one more step of `StreamEffect`. */
  lemma StreamStep(items: seq<SdkMessage>, i: nat)
    requires i < |items|
    ensures StreamEffect(items[..i + 1]) == Then(StreamEffect(items[..i]), MessageEffect(items[i]))
  {
    assert items[..i + 1][..i] == items[..i];
  }

  lemma {:induction false} BlocksWellFormed(bs: seq<SdkBlock>)
    ensures WellFormed(BlocksEffect(bs))
    decreases |bs|
  {
    if bs != [] {
      BlocksWellFormed(bs[..|bs| - 1]);
      BlockWellFormed(bs[|bs| - 1]);
      ThenWellFormed(BlocksEffect(bs[..|bs| - 1]), BlockEffect(bs[|bs| - 1]));
    }
  }

  /**
   * Whatever the stream, the history entries `_query_claude` adds are one
   * per text chunk with the same text, the session completes exactly when
   * a `spec_complete` chunk is yielded, and that chunk names the spec file.
   */
  lemma {:induction false} StreamWellFormed(items: seq<SdkMessage>)
    ensures WellFormed(StreamEffect(items))
    decreases |items|
  {
    if items != [] {
      StreamWellFormed(items[..|items| - 1]);
      var m := items[|items| - 1];
      if m.SdkAssistant? {
        BlocksWellFormed(m.blocks);
      }
      ThenWellFormed(StreamEffect(items[..|items| - 1]), MessageEffect(m));
    }
  }

  /**
   * A non-empty text block yields one chunk and one entry; an empty one
   * yields nothing.
   */
  lemma TextBlockEffect(text: string)
    ensures text != "" ==> BlockEffect(SdkText(text)) == Effect([TextChunk(text)], [Entry(AssistantRole, text)], false)
    ensures text == "" ==> BlockEffect(SdkText(text)) == Effect([], [], false)
  {
  }

  /** Writing the spec file completes; writing the initializer prompt (and not the spec) only reports it. */
  lemma WriteBlockEffect(input: Args, id: string)
    ensures var path := Display(Get(input, "file_path", Str("")));
            var e := BlockEffect(SdkToolUse("Write", input, id));
            && (e.completes <==> Contains(path, "app_spec.txt"))
            && (!Contains(path, "app_spec.txt") && Contains(path, "initializer_prompt.md") ==> e.chunks == [FileWritten(path)])
  {
  }

  // ---------------------------------------------------------------------
  // The session object
  // ---------------------------------------------------------------------

  /** The agent SDK client, as configured by `start`. */
  datatype SdkClient = SdkClient(model: string, systemPrompt: string, allowedTools: seq<string>, maxTurns: nat)

  /** How constructing and entering the client went. */
  datatype Connect = Connected | ConstructFailed(error: string) | EnterFailed(error: string)

  /** The create-spec skill with `$ARGUMENTS` replaced by the project's path under `generations/`. */
  function SystemPrompt(skill: string, projectName: string): (r: string)
    ensures !Contains(skill, "$ARGUMENTS") ==> r == skill
  {
    ReplaceAll(skill, "$ARGUMENTS", "generations/" + projectName)
  }

  function SpecClient(skill: string, projectName: string): SdkClient {
    SdkClient("claude-sonnet-4-20250514", SystemPrompt(skill, projectName), ["Read", "Write", "AskUserQuestion"], 100)
  }

  const NotInitialized := "Session not initialized. Call start() first."
  const Greeting := "Begin the spec creation process."

  class SpecChatSession {
    const projectName: string
    var client: Option<SdkClient>
    var clientEntered: bool
    var messages: seq<Entry>
    var complete: bool
    /** How many times `close` was called, and how many of those exited the client. */
    ghost var closeCalls: nat
    ghost var exits: nat

    constructor(projectName: string)
      ensures this.projectName == projectName
      ensures client == None && !clientEntered && messages == [] && !complete
      ensures closeCalls == 0 && exits == 0
    {
      this.projectName := projectName;
      client := None;
      clientEntered := false;
      messages := [];
      complete := false;
      closeCalls := 0;
      exits := 0;
    }

    /**
     * `close`: exits an entered client and forgets it, whether or not the
     * exit raises; otherwise it changes nothing. Afterwards no entered
     * client remains, so a second close is a no-op.
     */
    method Close()
      modifies this
      ensures closeCalls == old(closeCalls) + 1
      ensures old(client.Some? && clientEntered) ==>
                client == None && !clientEntered && exits == old(exits) + 1
      ensures !old(client.Some? && clientEntered) ==>
                client == old(client) && clientEntered == old(clientEntered) && exits == old(exits)
      ensures messages == old(messages) && complete == old(complete)
      ensures !(client.Some? && clientEntered)
    {
      closeCalls := closeCalls + 1;
      if client.Some? && clientEntered {
        exits := exits + 1;
        clientEntered := false;
        client := None;
      }
    }

    /** One assistant block, as `_query_claude` handles it. */
    method HandleBlock(b: SdkBlock) returns (chunks: seq<Chunk>)
      modifies this`messages, this`complete
      ensures var e := BlockEffect(b);
              chunks == e.chunks && messages == old(messages) + e.entries && complete == (old(complete) || e.completes)
    {
      chunks := [];
      match b {
        case SdkText(text) =>
          if text != "" {
            chunks := [TextChunk(text)];
            messages := messages + [Entry(AssistantRole, text)];
          }
        case SdkToolUse(name, input, id) =>
          if name == "AskUserQuestion" {
            chunks := [Question(Get(input, "questions", List([])), id)];
          } else if name == "Write" {
            var path := Display(Get(input, "file_path", Str("")));
            if Contains(path, "app_spec.txt") {
              complete := true;
              chunks := [SpecComplete(path)];
            } else if Contains(path, "initializer_prompt.md") {
              chunks := [FileWritten(path)];
            }
          }
        case SdkOtherBlock =>
      }
    }

    /** The loop over an assistant message's blocks. */
    method HandleBlocks(blocks: seq<SdkBlock>) returns (chunks: seq<Chunk>)
      modifies this`messages, this`complete
      ensures var e := BlocksEffect(blocks);
              chunks == e.chunks && messages == old(messages) + e.entries && complete == (old(complete) || e.completes)
    {
      chunks := [];
      var j := 0;
      while j < |blocks|
        invariant 0 <= j <= |blocks|
        invariant var e := BlocksEffect(blocks[..j]);
                  chunks == e.chunks && messages == old(messages) + e.entries && complete == (old(complete) || e.completes)
      {
        BlocksStep(blocks, j);
        Extend(old(messages), old(complete), BlocksEffect(blocks[..j]), BlockEffect(blocks[j]));
        var more := HandleBlock(blocks[j]);
        chunks := chunks + more;
        j := j + 1;
      }
      assert blocks[..j] == blocks;
    }

    /** The `async for` over the response stream inside `_query_claude`. */
    method StreamMessages(items: seq<SdkMessage>) returns (chunks: seq<Chunk>)
      modifies this`messages, this`complete
      ensures var e := StreamEffect(items);
              chunks == e.chunks && messages == old(messages) + e.entries && complete == (old(complete) || e.completes)
    {
      chunks := [];
      var i := 0;
      while i < |items|
        invariant 0 <= i <= |items|
        invariant var e := StreamEffect(items[..i]);
                  chunks == e.chunks && messages == old(messages) + e.entries && complete == (old(complete) || e.completes)
      {
        StreamStep(items, i);
        Extend(old(messages), old(complete), StreamEffect(items[..i]), MessageEffect(items[i]));
        if items[i].SdkAssistant? {
          var more := HandleBlocks(items[i].blocks);
          chunks := chunks + more;
        }
        i := i + 1;
      }
      assert items[..i] == items;
    }

    /**
     * `_query_claude`: with a client, streams the response, appending one
     * assistant entry per non-empty text and completing on a spec write;
     * the chunks are those of the messages streamed before any exception.
     */
    method QueryClaude(message: string, items: seq<SdkMessage>) returns (chunks: seq<Chunk>)
      modifies this`messages, this`complete
      ensures client.None? ==> chunks == [] && messages == old(messages) && complete == old(complete)
      ensures client.Some? ==>
                var e := StreamEffect(items);
                chunks == e.chunks && messages == old(messages) + e.entries && complete == (old(complete) || e.completes)
    {
      if client.None? {
        return [];
      }
      chunks := StreamMessages(items);
    }

    /**
     * `send_message`: without a client, one error chunk and nothing
     * changes; otherwise the user entry is stored first, then the response
     * streams, ending with `response_done`, or with an error chunk when the
     * stream raises.
     */
    method SendMessage(userMessage: string, stream: Stream) returns (chunks: seq<Chunk>)
      modifies this`messages, this`complete
      ensures client.None? ==> chunks == [ErrorChunk(NotInitialized)] && messages == old(messages) && complete == old(complete)
      ensures client.Some? ==>
                var e := StreamEffect(stream.items);
                && messages == old(messages) + [Entry(UserRole, userMessage)] + e.entries
                && complete == (old(complete) || e.completes)
                && chunks == e.chunks + [if stream.fault.None? then ResponseDone else ErrorChunk("Error: " + stream.fault.value)]
    {
      if client.None? {
        return [ErrorChunk(NotInitialized)];
      }
      messages := messages + [Entry(UserRole, userMessage)];
      chunks := QueryClaude(userMessage, stream.items);
      match stream.fault
      case None => chunks := chunks + [ResponseDone];
      case Some(e) => chunks := chunks + [ErrorChunk("Error: " + e)];
    }

    /**
     * `start`: reports a missing skill file; builds the client from the
     * skill (forgetting nothing when construction fails, keeping the
     * unentered client when entering fails); then streams the greeting.
     */
    method Start(skill: Option<string>, skillPath: string, connect: Connect, stream: Stream) returns (chunks: seq<Chunk>)
      modifies this
      ensures skill.None? ==>
                chunks == [ErrorChunk("Spec creation skill not found at " + skillPath)]
                && client == old(client) && clientEntered == old(clientEntered)
                && messages == old(messages) && complete == old(complete)
      ensures skill.Some? && connect.ConstructFailed? ==>
                chunks == [ErrorChunk("Failed to initialize Claude: " + connect.error)]
                && client == old(client) && clientEntered == old(clientEntered)
                && messages == old(messages) && complete == old(complete)
      ensures skill.Some? && connect.EnterFailed? ==>
                chunks == [ErrorChunk("Failed to initialize Claude: " + connect.error)]
                && client == Some(SpecClient(skill.value, projectName)) && clientEntered == old(clientEntered)
                && messages == old(messages) && complete == old(complete)
      ensures skill.Some? && connect.Connected? ==>
                var e := StreamEffect(stream.items);
                && client == Some(SpecClient(skill.value, projectName)) && clientEntered
                && messages == old(messages) + e.entries
                && complete == (old(complete) || e.completes)
                && chunks == e.chunks + [if stream.fault.None? then ResponseDone
                                         else ErrorChunk("Failed to start conversation: " + stream.fault.value)]
      ensures closeCalls == old(closeCalls) && exits == old(exits)
    {
      if skill.None? {
        return [ErrorChunk("Spec creation skill not found at " + skillPath)];
      }
      match connect {
        case ConstructFailed(e) =>
          return [ErrorChunk("Failed to initialize Claude: " + e)];
        case EnterFailed(e) =>
          client := Some(SpecClient(skill.value, projectName));
          return [ErrorChunk("Failed to initialize Claude: " + e)];
        case Connected =>
          client := Some(SpecClient(skill.value, projectName));
          clientEntered := true;
      }
      chunks := QueryClaude(Greeting, stream.items);
      match stream.fault
      case None => chunks := chunks + [ResponseDone];
      case Some(e) => chunks := chunks + [ErrorChunk("Failed to start conversation: " + e)];
    }

    /** `is_complete`. */
    method IsComplete() returns (r: bool)
      ensures r == complete
    {
      r := complete;
    }

    /** `get_messages`: a copy of the history. */
    method GetMessages() returns (r: seq<Entry>)
      ensures r == messages
    {
      r := messages;
    }
  }
}
