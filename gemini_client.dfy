/**
 * The tool-call loop engine: `GeminiClient.query` stores a message and
 * `receive_response` runs the request / execute / respond cycle against
 * the remote endpoint, at most `MaxTurns` times.
 */
module GeminiClientModel {
  import opened Wrappers
  import opened PyStrings
  import opened GeminiTypes
  import opened GeminiTools

  /** The turn cap of one `receive_response`. */
  const MaxTurns: nat := 20

  /** A function call the model asks for. */
  datatype FunctionCall = FunctionCall(name: string, args: Args)

  /** One part of a reply: its text (empty when it has none) and the function call it carries, if any. */
  datatype Part = Part(text: string, call: Option<FunctionCall>)

  /** What the endpoint gives back for one send: the reply's parts, or the exception the call raised. */
  datatype Reply = Parts(parts: seq<Part>) | Fault(error: string)

  /** What is sent to the endpoint: the user's prompt on the first turn, the tool outputs afterwards. */
  datatype Payload = Prompt(text: string) | ToolOutputs(responses: seq<FunctionResponse>)

  // ---------------------------------------------------------------------
  // Call identifiers
  // ---------------------------------------------------------------------

  /** `f"call_{turn}_{k}"`. */
  function CallId(turn: nat, k: nat): string {
    "call_" + NatStr(turn) + "_" + NatStr(k)
  }

  predicate AllDigits(s: string) {
    forall k :: 0 <= k < |s| ==> IsDigit(s[k])
  }

  /** Reads the turn and the index back out of a call identifier. */
  function ParseCallId(id: string): Option<(nat, nat)> {
    if |id| < 5 || id[..5] != "call_" then None else ParseTurnIndex(id[5..])
  }

  /** Reads `{turn}_{k}`. */
  function ParseTurnIndex(rest: string): Option<(nat, nat)> {
    match Find(rest, "_")
    case None => None
    case Some(i) =>
      var a, b := rest[..i], rest[i + 1..];
      if a != "" && b != "" && AllDigits(a) && AllDigits(b) then Some((ParseNat(a), ParseNat(b))) else None
  }

  /** In `a + "_" + b` with `a` all digits, the first `_` is the one after `a`. */
  lemma FirstSeparator(a: string, b: string)
    requires AllDigits(a)
    ensures Find(a + "_" + b, "_") == Some(|a|)
  {
    var rest := a + "_" + b;
    assert OccursAt(rest, "_", |a|) by { assert rest[|a|..|a| + 1] == "_"; }
    FindNone(rest, "_");
    FindLeftmost(rest, "_");
    forall j | 0 <= j < |a|
      ensures !OccursAt(rest, "_", j)
    {
      assert rest[j..j + 1][0] == rest[j] == a[j];
    }
  }

  /** Two non-empty digit strings joined by `_` read back as their values. */
  lemma ParseTurnIndexOf(a: string, b: string)
    requires a != "" && b != "" && AllDigits(a) && AllDigits(b)
    ensures ParseTurnIndex(a + "_" + b) == Some((ParseNat(a), ParseNat(b)))
  {
    var rest := a + "_" + b;
    FirstSeparator(a, b);
    assert rest[..|a|] == a;
    assert rest[|a| + 1..] == b;
  }

  /** Every call identifier reads back as the turn and index it was made from. */
  lemma ParseCallIdRoundTrip(turn: nat, k: nat)
    ensures ParseCallId(CallId(turn, k)) == Some((turn, k))
  {
    var a, b := NatStr(turn), NatStr(k);
    var id := CallId(turn, k);
    assert id == "call_" + (a + "_" + b);
    assert id[..5] == "call_" && id[5..] == a + "_" + b;
    ParseTurnIndexOf(a, b);
    ParseNatStr(turn);
    ParseNatStr(k);
  }

  /** Different (turn, index) pairs give different identifiers. */
  lemma CallIdInjective(t1: nat, k1: nat, t2: nat, k2: nat)
    requires CallId(t1, k1) == CallId(t2, k2)
    ensures t1 == t2 && k1 == k2
  {
    ParseCallIdRoundTrip(t1, k1);
    ParseCallIdRoundTrip(t2, k2);
  }

  // ---------------------------------------------------------------------
  // Turning a reply into an assistant message
  // ---------------------------------------------------------------------

  /** The assistant message's content and the calls found so far. */
  datatype Parsed = Parsed(content: seq<AssistantBlock>, calls: seq<ToolUseBlock>)

  /** One part: its non-empty text becomes a text block, then its call a tool-use block numbered after the earlier calls. */
  function ParseStep(prev: Parsed, part: Part, turn: nat): Parsed {
    var withText := if part.text != "" then prev.content + [TextPart(TextBlock(part.text))] else prev.content;
    match part.call
    case None => Parsed(withText, prev.calls)
    case Some(fc) =>
      var u := ToolUseBlock(fc.name, fc.args, CallId(turn, |prev.calls|));
      Parsed(withText + [ToolUsePart(u)], prev.calls + [u])
  }

  /** One step keeps the calls equal to the tool-use blocks of the content. */
  lemma ParseStepUses(prev: Parsed, part: Part, turn: nat)
    requires prev.calls == ToolUses(prev.content)
    ensures ParseStep(prev, part, turn).calls == ToolUses(ParseStep(prev, part, turn).content)
  {
    var withText := prev.content;
    if part.text != "" {
      withText := prev.content + [TextPart(TextBlock(part.text))];
      ToolUsesSnoc(prev.content, TextPart(TextBlock(part.text)));
    }
    if part.call.Some? {
      var u := ToolUseBlock(part.call.value.name, part.call.value.args, CallId(turn, |prev.calls|));
      ToolUsesSnoc(withText, ToolUsePart(u));
    }
  }

  /** One step numbers the call it adds after the earlier ones, and adds one exactly when the part carries a call. */
  lemma ParseStepIds(prev: Parsed, part: Part, turn: nat)
    requires forall k :: 0 <= k < |prev.calls| ==> prev.calls[k].id == CallId(turn, k)
    ensures var r := ParseStep(prev, part, turn);
            && (forall k :: 0 <= k < |r.calls| ==> r.calls[k].id == CallId(turn, k))
            && (r.calls == [] <==> prev.calls == [] && part.call.None?)
  {
    var r := ParseStep(prev, part, turn);
    if part.call.Some? {
      assert r.calls == prev.calls + [ToolUseBlock(part.call.value.name, part.call.value.args, CallId(turn, |prev.calls|))];
    } else {
      assert r.calls == prev.calls;
    }
  }

  /** The reply's parts, in order, as an assistant message and its calls. */
  function Parse(parts: seq<Part>, turn: nat): Parsed {
    if parts == [] then Parsed([], [])
    else ParseStep(Parse(parts[..|parts| - 1], turn), parts[|parts| - 1], turn)
  }

  /**
   * The calls `Parse` collects are the message's tool-use blocks, numbered
   * `call_{turn}_0`, `call_{turn}_1`, ...; there are none exactly when no part
   * carries a function call.
   */
  lemma {:induction false} ParseFacts(parts: seq<Part>, turn: nat)
    ensures var r := Parse(parts, turn);
            && r.calls == ToolUses(r.content)
            && (forall k :: 0 <= k < |r.calls| ==> r.calls[k].id == CallId(turn, k))
            && (r.calls == [] <==> forall k :: 0 <= k < |parts| ==> parts[k].call.None?)
    decreases |parts|
  {
    if parts != [] {
      var init := parts[..|parts| - 1];
      var part := parts[|parts| - 1];
      ParseFacts(init, turn);
      var prev := Parse(init, turn);
      ParseStepUses(prev, part, turn);
      ParseStepIds(prev, part, turn);
      assert parts == init + [part];
    }
  }

  /** The message yielded when the endpoint raises: one text block reporting the error. */
  function FaultMessage(error: string): AssistantMessage {
    AssistantMessage([TextPart(TextBlock("Error: " + error))])
  }

  // ---------------------------------------------------------------------
  // The loop, as a function of the endpoint and the tools
  // ---------------------------------------------------------------------

  /** Why the loop stopped. */
  datatype Stop = NoCalls | EndpointFault | TurnCap

  /** What a run yields, every payload sent so far, the project directory afterwards, and why it stopped. */
  datatype Run = Run(messages: seq<Message>, sent: seq<Payload>, files: Files, stop: Stop)

  /** The identifiers of an assistant message's calls are `call_{turn}_0`, `call_{turn}_1`, ... */
  predicate NumberedFor(m: AssistantMessage, turn: nat) {
    forall k :: 0 <= k < |ToolUses(m.content)| ==> ToolUses(m.content)[k].id == CallId(turn, k)
  }

  /** The reply has a part carrying a function call. */
  predicate AsksForTool(reply: Reply) {
    reply.Parts? && exists k :: 0 <= k < |reply.parts| && reply.parts[k].call.Some?
  }

  /** One turn's result: the loop stops with a last message, or continues with an exchange and the next payload. */
  datatype TurnOutcome =
    | Finished(message: Message, stop: Stop)
    | Continued(assistant: AssistantMessage, user: UserMessage, files: Files, next: Payload)

  /**
   * What turn number `turn` makes of the endpoint's reply: a fault ends the
   * run with the error message; a reply without calls ends it with that
   * reply; otherwise the calls run in order and their outputs are next.
   */
  function Turn(env: Env, files: Files, reply: Reply, turn: nat): (r: TurnOutcome)
    ensures r.Continued? <==> AsksForTool(reply)
    ensures r.Finished? && r.stop == EndpointFault <==> reply.Fault?
    ensures reply.Fault? ==> r.message == Assistant(FaultMessage(reply.error))
    ensures r.Finished? ==> r.stop != TurnCap
  {
    match reply
    case Fault(e) => Finished(Assistant(FaultMessage(e)), EndpointFault)
    case Parts(parts) =>
      ParseFacts(parts, turn);
      var p := Parse(parts, turn);
      if p.calls == [] then Finished(Assistant(AssistantMessage(p.content)), NoCalls)
      else
        var b := DispatchAll(env, files, p.calls);
        Continued(AssistantMessage(p.content), UserMessage(b.results), b.files, ToolOutputs(b.responses))
  }

  /**
   * A turn that stops yields an assistant message without calls; one that
   * continues yields a message whose calls are numbered for the turn, and
   * the answers to exactly those calls.
   */
  lemma TurnShape(env: Env, files: Files, reply: Reply, turn: nat)
    ensures var r := Turn(env, files, reply, turn);
            && (r.Finished? ==> r.message.Assistant? && ToolUses(r.message.assistant.content) == [])
            && (r.Continued? ==>
                  && ToolUses(r.assistant.content) != []
                  && NumberedFor(r.assistant, turn)
                  && Answers(r.user.content, ToolUses(r.assistant.content)))
  {
    if reply.Fault? {
      var e := reply.error;
      assert FaultMessage(e).content == [] + [TextPart(TextBlock("Error: " + e))];
      ToolUsesSnoc([], TextPart(TextBlock("Error: " + e)));
    } else {
      ParseFacts(reply.parts, turn);
      DispatchAllFacts(env, files, Parse(reply.parts, turn).calls);
    }
  }

  /** A turn function: what one turn makes of the project directory, the endpoint's reply and the turn number. */
  type Step = (Files, Reply, nat) -> TurnOutcome

  /**
   * The loop of `receive_response` around any turn function, from the point
   * where `turn` turns are done and `payload` is next to be sent, the
   * endpoint having received `sent` before.
   */
  function Drive(step: Step, endpoint: seq<Payload> -> Reply, sent: seq<Payload>, files: Files,
                 payload: Payload, turn: nat): Run
    requires turn <= MaxTurns
    decreases MaxTurns - turn
  {
    if turn == MaxTurns then Run([], sent, files, TurnCap)
    else
      var sent' := sent + [payload];
      match step(files, endpoint(sent'), turn + 1)
      case Finished(m, stop) => Run([m], sent', files, stop)
      case Continued(a, u, files', next) =>
        var rest := Drive(step, endpoint, sent', files', next, turn + 1);
        Run([Assistant(a), User(u)] + rest.messages, rest.sent, rest.files, rest.stop)
  }

  /** The turn function of `receive_response`, over the tools of `env`. */
  function TurnOf(env: Env): Step {
    (files: Files, reply: Reply, turn: nat) => Turn(env, files, reply, turn)
  }

  /** `receive_response` from the point where `turn` turns are done. */
  function Loop(env: Env, endpoint: seq<Payload> -> Reply, sent: seq<Payload>, files: Files,
                payload: Payload, turn: nat): Run
    requires turn <= MaxTurns
  {
    Drive(TurnOf(env), endpoint, sent, files, payload, turn)
  }

  /** Messages already yielded, followed by a run. */
  function After(out: seq<Message>, r: Run): Run {
    Run(out + r.messages, r.sent, r.files, r.stop)
  }

  lemma AfterAfter(a: seq<Message>, b: seq<Message>, r: Run)
    ensures After(a, After(b, r)) == After(a + b, r)
  {
    assert a + (b + r.messages) == (a + b) + r.messages;
  }

  /** A turn that stops ends the run with its message. */
  lemma DriveStops(step: Step, endpoint: seq<Payload> -> Reply, sent: seq<Payload>, files: Files,
                   payload: Payload, turn: nat)
    requires turn < MaxTurns
    requires step(files, endpoint(sent + [payload]), turn + 1).Finished?
    ensures var o := step(files, endpoint(sent + [payload]), turn + 1);
            Drive(step, endpoint, sent, files, payload, turn) == Run([o.message], sent + [payload], files, o.stop)
  {
  }

  /** A turn that continues yields its exchange, then the rest of the run. */
  lemma DriveContinues(step: Step, endpoint: seq<Payload> -> Reply, sent: seq<Payload>, files: Files,
                       payload: Payload, turn: nat)
    requires turn < MaxTurns
    requires step(files, endpoint(sent + [payload]), turn + 1).Continued?
    ensures var o := step(files, endpoint(sent + [payload]), turn + 1);
            Drive(step, endpoint, sent, files, payload, turn)
              == After([Assistant(o.assistant), User(o.user)], Drive(step, endpoint, sent + [payload], o.files, o.next, turn + 1))
  {
  }

  /** `DriveStops` for `receive_response`'s own turns. */
  lemma LoopStops(env: Env, endpoint: seq<Payload> -> Reply, sent: seq<Payload>, files: Files,
                  payload: Payload, turn: nat)
    requires turn < MaxTurns
    requires Turn(env, files, endpoint(sent + [payload]), turn + 1).Finished?
    ensures var o := Turn(env, files, endpoint(sent + [payload]), turn + 1);
            Loop(env, endpoint, sent, files, payload, turn) == Run([o.message], sent + [payload], files, o.stop)
  {
    DriveStops(TurnOf(env), endpoint, sent, files, payload, turn);
  }

  /** `DriveContinues` for `receive_response`'s own turns. */
  lemma LoopContinues(env: Env, endpoint: seq<Payload> -> Reply, sent: seq<Payload>, files: Files,
                      payload: Payload, turn: nat)
    requires turn < MaxTurns
    requires Turn(env, files, endpoint(sent + [payload]), turn + 1).Continued?
    ensures var o := Turn(env, files, endpoint(sent + [payload]), turn + 1);
            Loop(env, endpoint, sent, files, payload, turn)
              == After([Assistant(o.assistant), User(o.user)], Loop(env, endpoint, sent + [payload], o.files, o.next, turn + 1))
  {
    DriveContinues(TurnOf(env), endpoint, sent, files, payload, turn);
  }

  // ---------------------------------------------------------------------
  // What every turn guarantees
  // ---------------------------------------------------------------------

  /** The guarantees of one turn, as `Turn` and `TurnShape` state them. */
  predicate SoundOutcome(o: TurnOutcome, reply: Reply, turn: nat) {
    && (o.Continued? <==> AsksForTool(reply))
    && (o.Finished? && o.stop == EndpointFault <==> reply.Fault?)
    && (reply.Fault? ==> o.message == Assistant(FaultMessage(reply.error)))
    && (o.Finished? ==> o.stop != TurnCap && o.message.Assistant? && ToolUses(o.message.assistant.content) == [])
    && (o.Continued? ==>
          && ToolUses(o.assistant.content) != []
          && NumberedFor(o.assistant, turn)
          && Answers(o.user.content, ToolUses(o.assistant.content)))
  }

  /** A turn function every one of whose turns keeps those guarantees. */
  ghost predicate Sound(step: Step) {
    forall files, reply, turn :: SoundOutcome(step(files, reply, turn), reply, turn)
  }

  /** `receive_response`'s turn function keeps them. */
  lemma TurnOfSound(env: Env)
    ensures Sound(TurnOf(env))
  {
    forall files, reply, turn
      ensures SoundOutcome(TurnOf(env)(files, reply, turn), reply, turn)
    {
      TurnShape(env, files, reply, turn);
    }
  }

  // ---------------------------------------------------------------------
  // The shape of what the loop yields
  // ---------------------------------------------------------------------

  /**
   * The messages of turns `turn + 1`, `turn + 2`, ...: each turn is an
   * assistant message whose calls are numbered for that turn; if it has
   * calls, the user message answering exactly those calls follows; if it
   * has none, nothing follows.
   */
  predicate Exchanges(ms: seq<Message>, turn: nat)
    decreases |ms|
  {
    ms == [] ||
    (ms[0].Assistant? && NumberedFor(ms[0].assistant, turn + 1) &&
      if ToolUses(ms[0].assistant.content) == [] then |ms| == 1
      else
        && |ms| >= 2 && ms[1].User?
        && Answers(ms[1].user.content, ToolUses(ms[0].assistant.content))
        && Exchanges(ms[2..], turn + 1))
  }

  /** The loop yields well-formed exchanges. */
  lemma {:induction false} DriveYieldsExchanges(step: Step, endpoint: seq<Payload> -> Reply, sent: seq<Payload>,
                                                files: Files, payload: Payload, turn: nat)
    requires turn <= MaxTurns
    requires Sound(step)
    ensures Exchanges(Drive(step, endpoint, sent, files, payload, turn).messages, turn)
    decreases MaxTurns - turn
  {
    if turn < MaxTurns {
      var sent' := sent + [payload];
      var o := step(files, endpoint(sent'), turn + 1);
      assert SoundOutcome(o, endpoint(sent'), turn + 1);
      if o.Continued? {
        DriveContinues(step, endpoint, sent, files, payload, turn);
        DriveYieldsExchanges(step, endpoint, sent', o.files, o.next, turn + 1);
        var ms := Drive(step, endpoint, sent, files, payload, turn).messages;
        assert ms[2..] == Drive(step, endpoint, sent', o.files, o.next, turn + 1).messages;
      } else {
        DriveStops(step, endpoint, sent, files, payload, turn);
      }
    }
  }

  /** In well-formed exchanges, assistant messages stand exactly at the even positions. */
  lemma {:induction false} ExchangesAlternate(ms: seq<Message>, turn: nat)
    requires Exchanges(ms, turn)
    ensures forall i :: 0 <= i < |ms| ==> (ms[i].Assistant? <==> i % 2 == 0)
    decreases |ms|
  {
    if |ms| >= 2 {
      ExchangesAlternate(ms[2..], turn + 1);
      forall i | 2 <= i < |ms|
        ensures ms[i].Assistant? <==> i % 2 == 0
      {
        assert ms[i] == ms[2..][i - 2];
      }
    }
  }

  /** A message without calls is the last one yielded: the loop stops right after it. */
  lemma {:induction false} ExchangesStopAfterNoCalls(ms: seq<Message>, turn: nat, i: nat)
    requires Exchanges(ms, turn)
    requires i < |ms| && ms[i].Assistant? && ToolUses(ms[i].assistant.content) == []
    ensures i == |ms| - 1
    decreases |ms|
  {
    if i >= 2 {
      assert ms[2..][i - 2] == ms[i];
      ExchangesStopAfterNoCalls(ms[2..], turn + 1, i - 2);
    } else if i == 1 {
      assert false;
    }
  }

  /** The run sends what it was given first, keeps what was sent before, and sends at most once per remaining turn. */
  lemma {:induction false} DriveSendsAtMostCap(step: Step, endpoint: seq<Payload> -> Reply, sent: seq<Payload>,
                                               files: Files, payload: Payload, turn: nat)
    requires turn <= MaxTurns
    ensures var r := Drive(step, endpoint, sent, files, payload, turn);
            && sent <= r.sent
            && |r.sent| <= |sent| + (MaxTurns - turn)
            && (turn < MaxTurns ==> sent + [payload] <= r.sent)
            && |r.messages| <= 2 * (MaxTurns - turn)
    decreases MaxTurns - turn
  {
    if turn < MaxTurns {
      var sent' := sent + [payload];
      var o := step(files, endpoint(sent'), turn + 1);
      if o.Continued? {
        DriveContinues(step, endpoint, sent, files, payload, turn);
        DriveSendsAtMostCap(step, endpoint, sent', o.files, o.next, turn + 1);
      } else {
        DriveStops(step, endpoint, sent, files, payload, turn);
      }
      assert sent <= sent';
    }
  }

  /**
   * In well-formed exchanges, the message at an even position `i` is an
   * assistant message whose calls are numbered for turn `turn + i / 2 + 1`,
   * and the message after it, if any, is the user message answering exactly
   * those calls, in order.
   */
  lemma {:induction false} ExchangesAnswered(ms: seq<Message>, turn: nat)
    requires Exchanges(ms, turn)
    ensures forall i :: 0 <= i < |ms| && i % 2 == 0 ==>
              ms[i].Assistant? && NumberedFor(ms[i].assistant, turn + i / 2 + 1)
    ensures forall i :: 0 <= i && i + 1 < |ms| && i % 2 == 0 ==>
              ms[i + 1].User? && Answers(ms[i + 1].user.content, ToolUses(ms[i].assistant.content))
    decreases |ms|
  {
    if |ms| >= 2 {
      var rest := ms[2..];
      ExchangesAnswered(rest, turn + 1);
      forall i | 2 <= i < |ms| && i % 2 == 0
        ensures ms[i].Assistant? && NumberedFor(ms[i].assistant, turn + i / 2 + 1)
      {
        assert ms[i] == rest[i - 2] && (i - 2) % 2 == 0 && (i - 2) / 2 + 1 == i / 2;
      }
      forall i | 2 <= i && i + 1 < |ms| && i % 2 == 0
        ensures ms[i + 1].User? && Answers(ms[i + 1].user.content, ToolUses(ms[i].assistant.content))
      {
        assert ms[i] == rest[i - 2] && ms[i + 1] == rest[i - 1] && (i - 2) % 2 == 0;
      }
    }
  }

  /** The shape of well-formed exchanges from the first turn, as `LoopYieldsExchanges` states it. */
  lemma ExchangesShape(ms: seq<Message>)
    requires Exchanges(ms, 0)
    ensures forall i :: 0 <= i < |ms| ==> (ms[i].Assistant? <==> i % 2 == 0)
    ensures forall i :: 0 <= i < |ms| && i % 2 == 0 ==> NumberedFor(ms[i].assistant, i / 2 + 1)
    ensures forall i :: 0 <= i && i + 1 < |ms| && i % 2 == 0 ==>
              ms[i + 1].User? && Answers(ms[i + 1].user.content, ToolUses(ms[i].assistant.content))
    ensures forall i :: 0 <= i < |ms| && ms[i].Assistant? && ToolUses(ms[i].assistant.content) == [] ==>
              i == |ms| - 1
  {
    ExchangesAlternate(ms, 0);
    ExchangesAnswered(ms, 0);
    forall i | 0 <= i < |ms| && ms[i].Assistant? && ToolUses(ms[i].assistant.content) == []
      ensures i == |ms| - 1
    {
      ExchangesStopAfterNoCalls(ms, 0, i);
    }
  }

  /**
   * What `receive_response` yields, from its first turn: assistant messages
   * at the even positions, the assistant message of turn `n` numbering its
   * calls for `n`; after each one with calls, the user message answering
   * exactly those calls, in order; and a message without calls only last.
   */
  lemma LoopYieldsExchanges(env: Env, endpoint: seq<Payload> -> Reply, sent: seq<Payload>, files: Files,
                            prompt: string)
    ensures var ms := Loop(env, endpoint, sent, files, Prompt(prompt), 0).messages;
            && (forall i :: 0 <= i < |ms| ==> (ms[i].Assistant? <==> i % 2 == 0))
            && (forall i :: 0 <= i < |ms| && i % 2 == 0 ==> NumberedFor(ms[i].assistant, i / 2 + 1))
            && (forall i :: 0 <= i && i + 1 < |ms| && i % 2 == 0 ==>
                  ms[i + 1].User? && Answers(ms[i + 1].user.content, ToolUses(ms[i].assistant.content)))
            && (forall i :: 0 <= i < |ms| && ms[i].Assistant? && ToolUses(ms[i].assistant.content) == [] ==>
                  i == |ms| - 1)
  {
    TurnOfSound(env);
    DriveYieldsExchanges(TurnOf(env), endpoint, sent, files, Prompt(prompt), 0);
    ExchangesShape(Loop(env, endpoint, sent, files, Prompt(prompt), 0).messages);
  }

  /**
   * `receive_response` sends its prompt first, keeps what the chat was sent
   * before, sends at most 20 times and yields at most 40 messages.
   */
  lemma LoopSendsAtMostCap(env: Env, endpoint: seq<Payload> -> Reply, sent: seq<Payload>, files: Files,
                           prompt: string)
    ensures var r := Loop(env, endpoint, sent, files, Prompt(prompt), 0);
            && sent + [Prompt(prompt)] <= r.sent
            && |r.sent| <= |sent| + 20
            && |r.messages| <= 40
  {
    DriveSendsAtMostCap(TurnOf(env), endpoint, sent, files, Prompt(prompt), 0);
  }

  /** Every reply carries a tool call. */
  ghost predicate AlwaysCalls(endpoint: seq<Payload> -> Reply) {
    forall h :: AsksForTool(endpoint(h))
  }

  /**
   * Against an endpoint that always asks for a tool, the loop runs to the
   * cap: one send, one assistant and one user message per remaining turn.
   */
  lemma {:induction false} AlwaysCallingRunsToCap(step: Step, endpoint: seq<Payload> -> Reply, sent: seq<Payload>,
                                                  files: Files, payload: Payload, turn: nat)
    requires turn <= MaxTurns
    requires Sound(step) && AlwaysCalls(endpoint)
    ensures var r := Drive(step, endpoint, sent, files, payload, turn);
            && |r.messages| == 2 * (MaxTurns - turn)
            && |r.sent| == |sent| + (MaxTurns - turn)
            && r.stop == TurnCap
    decreases MaxTurns - turn
  {
    if turn < MaxTurns {
      var sent' := sent + [payload];
      var reply := endpoint(sent');
      assert AsksForTool(reply);
      var o := step(files, reply, turn + 1);
      assert SoundOutcome(o, reply, turn + 1);
      DriveContinues(step, endpoint, sent, files, payload, turn);
      AlwaysCallingRunsToCap(step, endpoint, sent', o.files, o.next, turn + 1);
    }
  }

  /** From the start, an always-calling endpoint gets exactly 20 sends and yields 20 assistant and 20 user messages, alternating. */
  lemma AlwaysCallingYieldsTwentyExchanges(env: Env, endpoint: seq<Payload> -> Reply, sent: seq<Payload>,
                                           files: Files, prompt: string)
    requires AlwaysCalls(endpoint)
    ensures var r := Loop(env, endpoint, sent, files, Prompt(prompt), 0);
            && |r.sent| == |sent| + 20
            && |r.messages| == 40
            && forall i :: 0 <= i < 40 ==> (r.messages[i].Assistant? <==> i % 2 == 0)
  {
    TurnOfSound(env);
    AlwaysCallingRunsToCap(TurnOf(env), endpoint, sent, files, Prompt(prompt), 0);
    DriveYieldsExchanges(TurnOf(env), endpoint, sent, files, Prompt(prompt), 0);
    ExchangesAlternate(Loop(env, endpoint, sent, files, Prompt(prompt), 0).messages, 0);
  }

  /** An endpoint fault ends the run with one message whose only block reports the error. */
  lemma {:induction false} FaultEndsRun(step: Step, endpoint: seq<Payload> -> Reply, sent: seq<Payload>,
                                        files: Files, payload: Payload, turn: nat)
    requires turn <= MaxTurns
    requires Sound(step)
    ensures var r := Drive(step, endpoint, sent, files, payload, turn);
            r.stop == EndpointFault ==>
              && |r.messages| >= 1
              && endpoint(r.sent).Fault?
              && r.messages[|r.messages| - 1] == Assistant(FaultMessage(endpoint(r.sent).error))
    decreases MaxTurns - turn
  {
    if turn < MaxTurns {
      var sent' := sent + [payload];
      var o := step(files, endpoint(sent'), turn + 1);
      assert SoundOutcome(o, endpoint(sent'), turn + 1);
      if o.Continued? {
        DriveContinues(step, endpoint, sent, files, payload, turn);
        FaultEndsRun(step, endpoint, sent', o.files, o.next, turn + 1);
      } else {
        DriveStops(step, endpoint, sent, files, payload, turn);
      }
    }
  }

  // ---------------------------------------------------------------------
  // Call identifiers across a whole run
  // ---------------------------------------------------------------------

  /** The identifiers of `uses`, in order. */
  function Ids(uses: seq<ToolUseBlock>): (r: seq<string>)
    ensures |r| == |uses| && forall k :: 0 <= k < |uses| ==> r[k] == uses[k].id
  {
    if uses == [] then [] else [uses[0].id] + Ids(uses[1..])
  }

  /** The identifiers of all tool calls in `ms`, in order. */
  function CallIds(ms: seq<Message>): seq<string> {
    if ms == [] then []
    else (if ms[0].Assistant? then Ids(ToolUses(ms[0].assistant.content)) else []) + CallIds(ms[1..])
  }

  /** Every identifier is distinct and belongs to a turn after `turn`. */
  predicate Unique(ids: seq<string>, turn: nat) {
    && (forall i :: 0 <= i < |ids| ==> ParseCallId(ids[i]).Some? && ParseCallId(ids[i]).value.0 > turn)
    && (forall i, j :: 0 <= i < j < |ids| ==> ids[i] != ids[j])
  }

  /** Identifiers numbered for one turn, then distinct identifiers of later turns, are all distinct. */
  lemma DistinctAcrossTurns(head: seq<string>, rest: seq<string>, turn: nat)
    requires forall i :: 0 <= i < |head| ==> head[i] == CallId(turn + 1, i)
    requires Unique(rest, turn + 1)
    ensures Unique(head + rest, turn)
  {
    var ids := head + rest;
    forall i | 0 <= i < |head|
      ensures ParseCallId(ids[i]) == Some((turn + 1, i))
    {
      ParseCallIdRoundTrip(turn + 1, i);
    }
    forall i | |head| <= i < |ids|
      ensures ids[i] == rest[i - |head|]
    {
    }
  }

  /** The identifiers of an exchange: the assistant message's, then those of the exchanges after it. */
  lemma CallIdsStep(ms: seq<Message>)
    requires ms != [] && ms[0].Assistant? && (|ms| >= 2 ==> ms[1].User?)
    ensures CallIds(ms) == Ids(ToolUses(ms[0].assistant.content)) + (if |ms| == 1 then [] else CallIds(ms[2..]))
  {
    if |ms| >= 2 {
      assert ms[1..][1..] == ms[2..];
      assert CallIds(ms[1..]) == [] + CallIds(ms[2..]);
    } else {
      assert ms[1..] == [];
    }
  }

  /** A message numbered for `turn` has the identifiers `call_{turn}_0`, `call_{turn}_1`, ... */
  lemma HeadNumbered(m: AssistantMessage, turn: nat)
    requires NumberedFor(m, turn)
    ensures forall i :: 0 <= i < |Ids(ToolUses(m.content))| ==> Ids(ToolUses(m.content))[i] == CallId(turn, i)
  {
  }

  /** In well-formed exchanges, every call identifier is distinct, and each belongs to a turn after `turn`. */
  lemma {:induction false} ExchangesHaveDistinctIds(ms: seq<Message>, turn: nat)
    requires Exchanges(ms, turn)
    ensures Unique(CallIds(ms), turn)
    decreases |ms|
  {
    if ms == [] {
      assert CallIds(ms) == [];
    } else {
      var m := ms[0].assistant;
      var head := Ids(ToolUses(m.content));
      HeadNumbered(m, turn + 1);
      if ToolUses(m.content) == [] {
        assert |ms| == 1;
        CallIdsStep(ms);
        DistinctAcrossTurns(head, [], turn);
        assert head + [] == head;
      } else {
        assert |ms| >= 2 && ms[1].User? && Exchanges(ms[2..], turn + 1);
        CallIdsStep(ms);
        ExchangesHaveDistinctIds(ms[2..], turn + 1);
        DistinctAcrossTurns(head, CallIds(ms[2..]), turn);
      }
    }
  }

  /** No two tool calls of one `receive_response` share an identifier, within a reply or across turns. */
  lemma LoopIdsDistinct(env: Env, endpoint: seq<Payload> -> Reply, sent: seq<Payload>, files: Files, prompt: string)
    ensures var ids := CallIds(Loop(env, endpoint, sent, files, Prompt(prompt), 0).messages);
            forall i, j :: 0 <= i < j < |ids| ==> ids[i] != ids[j]
  {
    TurnOfSound(env);
    DriveYieldsExchanges(TurnOf(env), endpoint, sent, files, Prompt(prompt), 0);
    ExchangesHaveDistinctIds(Loop(env, endpoint, sent, files, Prompt(prompt), 0).messages, 0);
  }


}

/**
 * The client object: the pending message, the project directory the tools
 * work on, and the chat session with everything sent to it so far.
 */
module GeminiClientObject {
  import opened Wrappers
  import opened PyStrings
  import opened GeminiTypes
  import opened GeminiTools
  import opened GeminiClientModel

  class GeminiClient {
    /** The security hook, the shell and the feature tools. */
    const env: Env
    /** The remote model: its reply depends on everything the chat has been sent. */
    const endpoint: seq<Payload> -> Reply
    /** The project directory. */
    var files: Files
    /** Everything sent to the chat session, oldest first. */
    var sent: seq<Payload>
    var pending: Option<string>

    constructor(env: Env, endpoint: seq<Payload> -> Reply, files: Files)
      ensures this.env == env && this.endpoint == endpoint && this.files == files
      ensures sent == [] && pending == None
    {
      this.env := env;
      this.endpoint := endpoint;
      this.files := files;
      sent := [];
      pending := None;
    }

    /** `query`: stores the message for the next `receive_response`. */
    method Query(message: string)
      modifies this
      ensures pending == Some(message)
      ensures files == old(files) && sent == old(sent)
    {
      pending := Some(message);
    }

    /** `_execute_read`: the frames of the requested files, joined by newlines. */
    method ExecuteRead(paths: seq<string>) returns (r: string)
      ensures r == ReadFiles(files, paths)
    {
      var results: seq<string> := [];
      var i := 0;
      while i < |paths|
        invariant 0 <= i <= |paths|
        invariant results == Frames(files, paths[..i])
      {
        assert paths[..i + 1][..i] == paths[..i];
        results := results + [Frame(files, paths[i])];
        i := i + 1;
      }
      assert paths[..i] == paths;
      r := Join("\n", results);
    }

    /** Runs one tool call, reading through `ExecuteRead`. */
    method RunCall(call: ToolUseBlock) returns (result: ToolResultBlock, response: FunctionResponse)
      modifies this`files
      ensures var d := Dispatch(env, old(files), call);
              result == d.result && response == d.response && files == d.files
    {
      if call.name == "Read" && call.input.Keys == {"paths"} && StrList(call.input["paths"]).Some? {
        var text := ExecuteRead(StrList(call.input["paths"]).value);
        result := ToolResultBlock(call.id, text, false);
        response := FunctionResponse(call.name, text);
      } else {
        var d := Dispatch(env, files, call);
        result, response := d.result, d.response;
        files := d.files;
      }
    }

    /** The loop over a reply's parts: the assistant message's content and its calls, numbered for `turn`. */
    method ParseReply(parts: seq<Part>, turn: nat) returns (content: seq<AssistantBlock>, calls: seq<ToolUseBlock>)
      ensures Parsed(content, calls) == Parse(parts, turn)
    {
      content, calls := [], [];
      var i := 0;
      while i < |parts|
        invariant 0 <= i <= |parts|
        invariant Parsed(content, calls) == Parse(parts[..i], turn)
      {
        assert parts[..i + 1][..i] == parts[..i];
        var part := parts[i];
        if part.text != "" {
          content := content + [TextPart(TextBlock(part.text))];
        }
        if part.call.Some? {
          var u := ToolUseBlock(part.call.value.name, part.call.value.args, CallId(turn, |calls|));
          content := content + [ToolUsePart(u)];
          calls := calls + [u];
        }
        i := i + 1;
      }
      assert parts[..i] == parts;
    }

    /** The loop over the calls: runs each in order and collects the results and the responses for the model. */
    method RunCalls(calls: seq<ToolUseBlock>) returns (results: seq<ToolResultBlock>, outputs: seq<FunctionResponse>)
      modifies this`files
      ensures Batch(results, outputs, files) == DispatchAll(env, old(files), calls)
    {
      results, outputs := [], [];
      var j := 0;
      while j < |calls|
        invariant 0 <= j <= |calls|
        invariant Batch(results, outputs, files) == DispatchAll(env, old(files), calls[..j])
      {
        assert calls[..j + 1][..j] == calls[..j];
        var result, response := RunCall(calls[j]);
        results := results + [result];
        outputs := outputs + [response];
        j := j + 1;
      }
      assert calls[..j] == calls;
    }

    /**
     * One pass of the loop body: sends `current`, builds the assistant
     * message, and when it asks for tools, runs them; returns what the pass
     * yields and the next payload, or `None` when the loop stops.
     */
    method RunTurn(current: Payload, turn: nat) returns (yielded: seq<Message>, next: Option<Payload>)
      modifies this`files, this`sent
      ensures var o := Turn(env, old(files), endpoint(old(sent) + [current]), turn);
              && sent == old(sent) + [current]
              && (o.Finished? ==> yielded == [o.message] && next == None && files == old(files))
              && (o.Continued? ==> yielded == [Assistant(o.assistant), User(o.user)] && next == Some(o.next) && files == o.files)
    {
      sent := sent + [current];
      var reply := endpoint(sent);
      if reply.Fault? {
        return [Assistant(FaultMessage(reply.error))], None;
      }
      var content, calls := ParseReply(reply.parts, turn);
      if calls == [] {
        return [Assistant(AssistantMessage(content))], None;
      }
      var results, outputs := RunCalls(calls);
      yielded := [Assistant(AssistantMessage(content)), User(UserMessage(results))];
      next := Some(ToolOutputs(outputs));
    }

    /**
     * `receive_response`: nothing when no message is pending; otherwise
     * clears it and yields what the loop yields, sending to the chat and
     * changing the project directory as the loop does.
     */
    method ReceiveResponse() returns (out: seq<Message>)
      modifies this
      ensures old(pending) in {None, Some("")} ==>
                out == [] && pending == old(pending) && sent == old(sent) && files == old(files)
      ensures old(pending) !in {None, Some("")} ==>
                var r := Loop(env, endpoint, old(sent), old(files), Prompt(old(pending).value), 0);
                && pending == None
                && out == r.messages && sent == r.sent && files == r.files
    {
      out := [];
      if pending == None || pending == Some("") {
        return;
      }
      var current := Prompt(pending.value);
      pending := None;
      ghost var whole := Loop(env, endpoint, sent, files, current, 0);
      var turn := 0;
      while turn < MaxTurns
        invariant 0 <= turn <= MaxTurns
        invariant pending == None
        invariant whole == After(out, Loop(env, endpoint, sent, files, current, turn))
        decreases MaxTurns - turn
      {
        ghost var out0, sent0, files0, current0, turn0 := out, sent, files, current, turn;
        turn := turn + 1;
        var yielded, next := RunTurn(current, turn);
        out := out + yielded;
        if next == None {
          LoopStops(env, endpoint, sent0, files0, current0, turn0);
          return;
        }
        current := next.value;
        LoopContinues(env, endpoint, sent0, files0, current0, turn0);
        AfterAfter(out0, yielded, Loop(env, endpoint, sent, files, current, turn));
      }
    }
  }
}
