/**
 * The tools the loop engine dispatches to (Read, Write, Edit, Bash, and
 * the opaque Glob, Grep and feature-tracker tools), modelled on an
 * in-memory project directory, and the dispatch step that turns one tool
 * call into one tool result.
 */
module GeminiTools {
  import opened Wrappers
  import opened PyStrings
  import opened GeminiTypes

  /** The project directory: relative path to file content. */
  type Files = map<string, string>

  /** What calling a tool function does: it returns a value or raises an exception. */
  datatype Outcome = Returned(text: string) | Raised(error: string)

  /** What the Bash security hook answers (or the exception it raises). */
  datatype Decision = Allow | Block(reason: string) | HookRaised(error: string)

  /** What running a shell command gives: its combined stdout and stderr, or the exception starting it raised. */
  datatype ShellOutcome = Output(text: string) | ShellFailed(error: string)

  /** A shell run in the project directory: what it gives, and the directory it leaves behind. */
  datatype ShellRun = ShellRun(outcome: ShellOutcome, files: Files)

  /**
   * The collaborators the tools call and that are not part of this model:
   * the security policy; the subprocess, which runs in the project
   * directory and may change it; Glob and Grep, which read the directory
   * and write nothing; the feature tracker, whose effects are not shown;
   * and the text Python gives for arguments that do not fit a built-in
   * tool's signature.
   */
  datatype Env = Env(
    securityHook: Value -> Decision,
    shell: (Value, Files) -> ShellRun,
    search: (string, Args, Files) -> Outcome,
    feature: (string, Args, Files) -> ToolRun,
    bindError: (string, Args) -> string,
    badValue: (string, Args) -> Outcome
  )

  /** A tool's reply as sent back to the endpoint: the tool's name and its result. */
  datatype FunctionResponse = FunctionResponse(name: string, result: string)

  /** A tool run: its outcome and the project directory afterwards. */
  datatype ToolRun = ToolRun(outcome: Outcome, files: Files)

  /** One dispatched call: the result block, the reply for the endpoint, the directory afterwards. */
  datatype Dispatched = Dispatched(result: ToolResultBlock, response: FunctionResponse, files: Files)

  /** All calls of one reply, dispatched in order. */
  datatype Batch = Batch(results: seq<ToolResultBlock>, responses: seq<FunctionResponse>, files: Files)

  const BuiltinTools: set<string> := {"Read", "Write", "Edit", "Bash", "Glob", "Grep"}

  /** The built-in tools whose bodies search the directory: glob and `grep -r`. */
  const SearchTools: set<string> := {"Glob", "Grep"}

  const FeatureTools: set<string> := {
    "feature_get_stats", "feature_get_next", "feature_get_for_regression",
    "feature_mark_passing", "feature_skip", "feature_mark_in_progress", "feature_create_bulk"
  }

  /** The keys of the client's function map. */
  const ToolNames: set<string> := BuiltinTools + FeatureTools

  // ---------------------------------------------------------------------
  // Read
  // ---------------------------------------------------------------------

  /** What a text-mode read of the file at `p` gives. */
  function ReadText(files: Files, p: string): string
    requires p in files
  {
    Newlines(files[p])
  }

  /** The framed section Read produces for one path. */
  function Frame(files: Files, p: string): string {
    if p in files then "---\n" + p + " ---\n" + ReadText(files, p) + "\n"
    else "---\n" + p + " ---\n[File not found]\n"
  }

  /** The sections for `paths`, in order. */
  function Frames(files: Files, paths: seq<string>): (r: seq<string>)
    ensures |r| == |paths|
    ensures forall k :: 0 <= k < |paths| ==> r[k] == Frame(files, paths[k])
  {
    if paths == [] then []
    else Frames(files, paths[..|paths| - 1]) + [Frame(files, paths[|paths| - 1])]
  }

  /** Read's result: the sections joined by newlines. Read never raises. */
  function ReadFiles(files: Files, paths: seq<string>): string {
    Join("\n", Frames(files, paths))
  }

  // ---------------------------------------------------------------------
  // Write and Edit
  // ---------------------------------------------------------------------

  function WriteFile(files: Files, path: string, content: string): ToolRun {
    ToolRun(Returned("Successfully wrote to " + path), files[path := content])
  }

  /**
   * Edit's transformation of the file content: replace every occurrence of
   * `oldString`; failing that, every occurrence of `oldString.strip()`;
   * failing both, nothing (`None`).
   */
  function EditContent(content: string, oldString: string, newString: string): (r: Option<string>)
    ensures r.None? <==> !Contains(content, Strip(oldString))
  {
    StripOccurs(content, oldString);
    if Contains(content, oldString) then Some(ReplaceAll(content, oldString, newString))
    else if Contains(content, Strip(oldString)) then Some(ReplaceAll(content, Strip(oldString), newString))
    else None
  }

  /** Where `s` occurs in `content`, so does `s.strip()`. */
  lemma StripOccurs(content: string, s: string)
    ensures Contains(content, s) ==> Contains(content, Strip(s))
  {
    if Contains(content, s) {
      ContainsTransitive(content, s, Strip(s));
    }
  }

  /** Edit of the file at `path`: the content it reads in text mode, transformed, is written back. */
  function EditFile(files: Files, path: string, oldString: string, newString: string): ToolRun {
    if path !in files then ToolRun(Returned("Error: File " + path + " not found"), files)
    else
      match EditContent(ReadText(files, path), oldString, newString)
      case None => ToolRun(Returned("Error: old_string not found in " + path + ". Please check whitespace."), files)
      case Some(c) => ToolRun(Returned("Successfully edited " + path), files[path := c])
  }

  // ---------------------------------------------------------------------
  // Bash
  // ---------------------------------------------------------------------

  /**
   * Bash: the security hook decides first; only an allowed command reaches
   * the shell, which runs in the project directory and may change it.
   */
  function ExecuteBash(env: Env, files: Files, command: Value): ToolRun {
    match env.securityHook(command)
    case HookRaised(e) => ToolRun(Raised(e), files)
    case Block(reason) => ToolRun(Returned("Security Blocked: " + reason), files)
    case Allow =>
      var run := env.shell(command, files);
      match run.outcome
      case ShellFailed(e) => ToolRun(Returned("Error executing command: " + e), run.files)
      case Output(o) => ToolRun(Returned(if Strip(o) == "" then "[Command finished with no output]" else o), run.files)
  }

  // ---------------------------------------------------------------------
  // Dispatch
  // ---------------------------------------------------------------------

  /** `args.get("command", "")`. */
  function CommandArg(args: Args): Value {
    if "command" in args then args["command"] else Str("")
  }

  /** The strings of a list value, when it is a list of strings. */
  function StrList(v: Value): (r: Option<seq<string>>)
    ensures r.Some? ==> v.List? && |r.value| == |v.items|
  {
    match v
    case List(items) =>
      if forall k :: 0 <= k < |items| ==> items[k].Str? then Some(seq(|items|, k requires 0 <= k < |items| => items[k].s))
      else None
    case _ => None
  }

  /** Whether all the given keyword arguments are strings. */
  predicate AllStr(args: Args, keys: set<string>) {
    forall k :: k in keys && k in args ==> args[k].Str?
  }

  /** Calling the function the tool table maps `name` to, with `args` as keyword arguments. */
  function RunTool(env: Env, files: Files, name: string, args: Args): ToolRun
    requires name in ToolNames
  {
    if name == "Bash" then ExecuteBash(env, files, CommandArg(args))
    else if name == "Read" then
      if args.Keys != {"paths"} then ToolRun(Raised(env.bindError(name, args)), files)
      else
        match StrList(args["paths"])
        case None => ToolRun(env.badValue(name, args), files)
        case Some(paths) => ToolRun(Returned(ReadFiles(files, paths)), files)
    else if name == "Write" then
      if args.Keys != {"path", "content"} then ToolRun(Raised(env.bindError(name, args)), files)
      else if !AllStr(args, args.Keys) then ToolRun(env.badValue(name, args), files)
      else WriteFile(files, args["path"].s, args["content"].s)
    else if name == "Edit" then
      if args.Keys != {"path", "old_string", "new_string"} then ToolRun(Raised(env.bindError(name, args)), files)
      else if !AllStr(args, args.Keys) then ToolRun(env.badValue(name, args), files)
      else EditFile(files, args["path"].s, args["old_string"].s, args["new_string"].s)
    else if name in SearchTools then ToolRun(env.search(name, args, files), files)
    else env.feature(name, args, files)
  }

  /** One tool call through the tool table, with every failure turned into a result. */
  function Dispatch(env: Env, files: Files, call: ToolUseBlock): Dispatched {
    if call.name !in ToolNames then
      var msg := "Error: Unknown tool " + call.name;
      Dispatched(ToolResultBlock(call.id, msg, true), FunctionResponse(call.name, msg), files)
    else
      var run := RunTool(env, files, call.name, call.input);
      match run.outcome
      case Returned(t) =>
        Dispatched(ToolResultBlock(call.id, t, false), FunctionResponse(call.name, t), run.files)
      case Raised(e) =>
        var msg := "Error executing " + call.name + ": " + e;
        Dispatched(ToolResultBlock(call.id, msg, true), FunctionResponse(call.name, msg), run.files)
  }

  /** The calls of one reply, dispatched in order by `dispatch`, each seeing the files the previous ones left. */
  function DispatchWith(dispatch: (Files, ToolUseBlock) -> Dispatched, files: Files, calls: seq<ToolUseBlock>): Batch {
    if calls == [] then Batch([], [], files)
    else
      var prev := DispatchWith(dispatch, files, calls[..|calls| - 1]);
      var d := dispatch(prev.files, calls[|calls| - 1]);
      Batch(prev.results + [d.result], prev.responses + [d.response], d.files)
  }

  /** The calls of one reply, dispatched in order through the tool table. */
  function DispatchAll(env: Env, files: Files, calls: seq<ToolUseBlock>): Batch {
    DispatchWith((f: Files, c: ToolUseBlock) => Dispatch(env, f, c), files, calls)
  }

  /** A dispatched call's result carries the call's id, and its response the call's name and the same text. */
  predicate KeepsCall(d: Dispatched, call: ToolUseBlock) {
    d.result.toolUseId == call.id && d.response.name == call.name && d.response.result == d.result.content
  }

  lemma DispatchKeepsCall(env: Env, files: Files, call: ToolUseBlock)
    ensures KeepsCall(Dispatch(env, files, call), call)
  {
  }

  /** With a dispatcher that keeps every call's id and name, the batch answers the calls in order. */
  lemma {:induction false} DispatchWithFacts(dispatch: (Files, ToolUseBlock) -> Dispatched, files: Files,
                                             calls: seq<ToolUseBlock>)
    requires forall f, c :: KeepsCall(dispatch(f, c), c)
    ensures var b := DispatchWith(dispatch, files, calls);
            && Answers(b.results, calls)
            && |b.responses| == |calls|
            && (forall k :: 0 <= k < |calls| ==> b.responses[k].name == calls[k].name)
            && (forall k :: 0 <= k < |calls| ==> b.responses[k].result == b.results[k].content)
    decreases |calls|
  {
    if calls != [] {
      var init := calls[..|calls| - 1];
      var last := calls[|calls| - 1];
      DispatchWithFacts(dispatch, files, init);
      var prev := DispatchWith(dispatch, files, init);
      assert KeepsCall(dispatch(prev.files, last), last);
      assert calls == init + [last];
    }
  }

  /**
   * Dispatching a reply's calls gives one result per call, in order, with
   * the call's id, and one response per call with the call's name and the
   * result's text.
   */
  lemma DispatchAllFacts(env: Env, files: Files, calls: seq<ToolUseBlock>)
    ensures var b := DispatchAll(env, files, calls);
            && Answers(b.results, calls)
            && |b.responses| == |calls|
            && (forall k :: 0 <= k < |calls| ==> b.responses[k].name == calls[k].name)
            && (forall k :: 0 <= k < |calls| ==> b.responses[k].result == b.results[k].content)
  {
    var dispatch := (f: Files, c: ToolUseBlock) => Dispatch(env, f, c);
    forall f, c
      ensures KeepsCall(dispatch(f, c), c)
    {
      DispatchKeepsCall(env, f, c);
    }
    DispatchWithFacts(dispatch, files, calls);
  }

  // ---------------------------------------------------------------------
  // Properties of Edit
  // ---------------------------------------------------------------------

  /**
   * When `oldString` occurs, Edit replaces every occurrence: the content is
   * cut at the occurrences into pieces free of `oldString`, and the edited
   * content is the same pieces joined by `newString`.
   */
  lemma EditReplacesEveryOccurrence(content: string, oldString: string, newString: string)
    requires oldString != "" && Contains(content, oldString)
    ensures var pieces := Split(content, oldString);
            && Join(oldString, pieces) == content
            && (forall k :: 0 <= k < |pieces| ==> !Contains(pieces[k], oldString))
            && EditContent(content, oldString, newString) == Some(Join(newString, pieces))
  {
    JoinSplit(content, oldString);
    SplitPiecesAreFree(content, oldString);
    ReplaceIsJoinOfSplit(content, oldString, newString);
  }

  /** When only `oldString.strip()` occurs, Edit replaces every occurrence of the stripped string. */
  lemma EditFallsBackToStripped(content: string, oldString: string, newString: string)
    requires !Contains(content, oldString) && Contains(content, Strip(oldString))
    requires Strip(oldString) != ""
    ensures var pieces := Split(content, Strip(oldString));
            && Join(Strip(oldString), pieces) == content
            && (forall k :: 0 <= k < |pieces| ==> !Contains(pieces[k], Strip(oldString)))
            && EditContent(content, oldString, newString) == Some(Join(newString, pieces))
  {
    JoinSplit(content, Strip(oldString));
    SplitPiecesAreFree(content, Strip(oldString));
    ReplaceIsJoinOfSplit(content, Strip(oldString), newString);
  }

  /** An `oldString` that occurs exactly once is replaced exactly there. */
  lemma EditUniqueOccurrence(content: string, oldString: string, newString: string, i: nat)
    requires oldString != "" && OccursAt(content, oldString, i)
    requires forall j :: OccursAt(content, oldString, j) ==> j == i
    ensures EditContent(content, oldString, newString)
            == Some(content[..i] + newString + content[i + |oldString|..])
  {
    assert Contains(content, oldString);
    ReplaceUnique(content, oldString, newString, i);
  }

  /**
   * An empty `oldString`, or an all-whitespace one that does not occur
   * (it strips to the empty string), is found everywhere by Python:
   * `newString` is then inserted before every character and at the end.
   */
  lemma EditWhitespaceOnlyInsertsEverywhere(content: string, oldString: string, newString: string)
    requires forall k :: 0 <= k < |oldString| ==> IsSpace(oldString[k])
    requires oldString == "" || !Contains(content, oldString)
    ensures EditContent(content, oldString, newString) == Some(InsertEverywhere(content, newString))
    ensures EditContent(content, oldString, newString) == Some(Join(newString, [""] + Chars(content) + [""]))
  {
    assert Strip(oldString) == "";
    assert OccursAt(content, "", 0);
    InsertEverywhereIsJoin(content, newString);
  }

  /** For instance, editing "ab" with a lone space as `oldString` and "X" as `newString` gives "XaXbX". */
  lemma EditWhitespaceOnlyExample()
    ensures EditContent("ab", " ", "X") == Some("XaXbX")
  {
    assert !Contains("ab", " ") by {
      assert !OccursAt("ab", " ", 0) && !OccursAt("ab", " ", 1);
    }
    EditWhitespaceOnlyInsertsEverywhere("ab", " ", "X");
    assert "ab"[1..] == "b" && "b"[1..] == "";
    assert InsertEverywhere("b", "X") == "X" + "b" + InsertEverywhere("", "X") == "XbX";
    assert InsertEverywhere("ab", "X") == "X" + "a" + "XbX" == "XaXbX";
  }

  /** Edit of a missing file is an error string and changes nothing. */
  lemma EditMissingFile(files: Files, path: string, oldString: string, newString: string)
    requires path !in files
    ensures EditFile(files, path, oldString, newString)
            == ToolRun(Returned("Error: File " + path + " not found"), files)
  {
  }

  /**
   * Edit finding neither `oldString` nor its stripped form in the text it
   * reads is an error string and changes nothing.
   */
  lemma EditNotFound(files: Files, path: string, oldString: string, newString: string)
    requires path in files
    requires !Contains(ReadText(files, path), oldString) && !Contains(ReadText(files, path), Strip(oldString))
    ensures EditFile(files, path, oldString, newString)
            == ToolRun(Returned("Error: old_string not found in " + path + ". Please check whitespace."), files)
  {
  }

  /**
   * Edit matches against the text as read, not as stored: a file holding
   * "a\r\nb" reads as "a\nb", so `oldString` "a\r\nb" is not found.
   */
  lemma EditSeesTextModeContent(files: Files, p: string)
    requires files == map[p := "a\r\nb"]
    ensures EditFile(files, p, "a\r\nb", "X")
            == ToolRun(Returned("Error: old_string not found in " + p + ". Please check whitespace."), files)
  {
    assert Newlines("b") == "b";
    assert Newlines("\r\nb") == "\nb";
    assert ReadText(files, p) == "a\nb";
    assert Strip("a\r\nb") == "a\r\nb" by {
      assert LeadingSpace("a\r\nb") == 0;
      assert TrailingSpace("a\r\nb") == 0;
    }
  }

  /**
   * Write `c` to `p`, Edit `p` replacing a substring that occurs once, at
   * `i`, in the text as read, then Read `p`: the section shows that text
   * with the one substring replaced (read once more in text mode), and the
   * other files are as before.
   */
  lemma WriteEditReadRoundTrip(files: Files, p: string, c: string, sub: string, rep: string, i: nat)
    requires sub != "" && OccursAt(Newlines(c), sub, i)
    requires forall j :: OccursAt(Newlines(c), sub, j) ==> j == i
    ensures var written := WriteFile(files, p, c).files;
            var edited := EditFile(written, p, sub, rep);
            var d := Newlines(c);
            && edited.outcome == Returned("Successfully edited " + p)
            && ReadFiles(edited.files, [p]) == "---\n" + p + " ---\n" + Newlines(d[..i] + rep + d[i + |sub|..]) + "\n"
            && forall q :: q != p ==> (q in edited.files <==> q in files) && (q in files ==> edited.files[q] == files[q])
  {
    var d := Newlines(c);
    var e := d[..i] + rep + d[i + |sub|..];
    var written := WriteFile(files, p, c).files;
    assert ReadText(written, p) == d;
    EditUniqueInFile(written, p, sub, rep, i);
    var edited := EditFile(written, p, sub, rep);
    ReadOne(edited.files, p);
    assert ReadText(edited.files, p) == Newlines(e);
  }

  /**
   * Without carriage returns in `c` and `rep`, the text as read is `c`
   * itself: Read then shows `c` with the one occurrence of `sub` replaced.
   */
  lemma WriteEditReadPlainText(files: Files, p: string, c: string, sub: string, rep: string, i: nat)
    requires '\r' !in c && '\r' !in rep
    requires sub != "" && OccursAt(c, sub, i)
    requires forall j :: OccursAt(c, sub, j) ==> j == i
    ensures var edited := EditFile(WriteFile(files, p, c).files, p, sub, rep);
            && edited.outcome == Returned("Successfully edited " + p)
            && ReadFiles(edited.files, [p]) == "---\n" + p + " ---\n" + (c[..i] + rep + c[i + |sub|..]) + "\n"
  {
    NewlinesWithoutCR(c);
    WriteEditReadRoundTrip(files, p, c, sub, rep, i);
    SpliceWithoutCR(c, rep, i, i + |sub|);
    NewlinesWithoutCR(c[..i] + rep + c[i + |sub|..]);
  }

  /** Edit of a file whose text, as read, holds `sub` exactly once writes back that text with `sub` replaced there. */
  lemma EditUniqueInFile(files: Files, p: string, sub: string, rep: string, i: nat)
    requires p in files
    requires sub != "" && OccursAt(ReadText(files, p), sub, i)
    requires forall j :: OccursAt(ReadText(files, p), sub, j) ==> j == i
    ensures var d := ReadText(files, p);
            EditFile(files, p, sub, rep)
              == ToolRun(Returned("Successfully edited " + p), files[p := d[..i] + rep + d[i + |sub|..]])
  {
    EditUniqueOccurrence(ReadText(files, p), sub, rep, i);
  }

  /** Read of one existing file frames its text as read. */
  lemma ReadOne(files: Files, p: string)
    requires p in files
    ensures ReadFiles(files, [p]) == "---\n" + p + " ---\n" + ReadText(files, p) + "\n"
  {
    assert Frames(files, [p]) == [Frame(files, p)];
  }

  /** Splicing text without carriage returns into text without them gives text without them. */
  lemma SpliceWithoutCR(c: string, rep: string, i: nat, j: nat)
    requires i <= j <= |c|
    requires '\r' !in c && '\r' !in rep
    ensures '\r' !in c[..i] + rep + c[j..]
  {
    assert forall ch :: ch in c[..i] ==> ch in c;
    assert forall ch :: ch in c[j..] ==> ch in c;
  }

  // ---------------------------------------------------------------------
  // Properties of dispatch
  // ---------------------------------------------------------------------

  /** A name outside the tool table gives an error result naming the tool, and touches nothing. */
  lemma DispatchUnknownTool(env: Env, files: Files, call: ToolUseBlock)
    requires call.name !in ToolNames
    ensures Dispatch(env, files, call).result
            == ToolResultBlock(call.id, "Error: Unknown tool " + call.name, true)
    ensures Dispatch(env, files, call).files == files
  {
  }

  /** A tool that raises gives an error result with the exception text; one that returns gives an unflagged result. */
  lemma DispatchFlagsExactlyRaises(env: Env, files: Files, call: ToolUseBlock)
    requires call.name in ToolNames
    ensures var d := Dispatch(env, files, call);
            match RunTool(env, files, call.name, call.input).outcome
            case Raised(e) => d.result == ToolResultBlock(call.id, "Error executing " + call.name + ": " + e, true)
            case Returned(t) => d.result == ToolResultBlock(call.id, t, false)
  {
  }

  /**
   * Read, Write and Edit called with fitting string arguments never flag an
   * error, even when what they return is an error message.
   */
  lemma FileToolsNeverFlag(env: Env, files: Files, call: ToolUseBlock)
    requires call.name in {"Read", "Write", "Edit"}
    requires call.name == "Read" ==> call.input.Keys == {"paths"} && StrList(call.input["paths"]).Some?
    requires call.name == "Write" ==> call.input.Keys == {"path", "content"} && AllStr(call.input, call.input.Keys)
    requires call.name == "Edit" ==> call.input.Keys == {"path", "old_string", "new_string"} && AllStr(call.input, call.input.Keys)
    ensures !Dispatch(env, files, call).result.isError
  {
  }

  /**
   * A Bash command the hook blocks gives the unflagged result
   * "Security Blocked: <reason>", the shell is never consulted (any other
   * shell gives the same dispatch), and the directory is left as it was.
   */
  lemma BashBlockedNeverRuns(env: Env, files: Files, call: ToolUseBlock, reason: string,
                             otherShell: (Value, Files) -> ShellRun)
    requires call.name == "Bash"
    requires env.securityHook(CommandArg(call.input)) == Block(reason)
    ensures Dispatch(env, files, call).result == ToolResultBlock(call.id, "Security Blocked: " + reason, false)
    ensures Dispatch(env, files, call).files == files
    ensures Dispatch(env.(shell := otherShell), files, call) == Dispatch(env, files, call)
  {
  }

  /** An allowed Bash command runs in the project directory, and the directory is what the shell leaves behind. */
  lemma BashAllowedRunsInDirectory(env: Env, files: Files, call: ToolUseBlock)
    requires call.name == "Bash"
    requires env.securityHook(CommandArg(call.input)) == Allow
    ensures Dispatch(env, files, call).files == env.shell(CommandArg(call.input), files).files
    ensures !Dispatch(env, files, call).result.isError
  {
  }

  /** Bash never flags an error unless the security hook itself raises. */
  lemma BashFlagsOnlyHookFaults(env: Env, files: Files, call: ToolUseBlock)
    requires call.name == "Bash"
    ensures Dispatch(env, files, call).result.isError <==> env.securityHook(CommandArg(call.input)).HookRaised?
  {
  }

  /**
   * Read, Glob, Grep, a name outside the tool table, and a Bash command the
   * hook does not allow leave the project directory as it was. Only Write,
   * Edit, an allowed Bash command and the feature tools can change it.
   */
  lemma ReadOnlyToolsKeepFiles(env: Env, files: Files, call: ToolUseBlock)
    requires || call.name !in ToolNames
             || call.name in {"Read", "Glob", "Grep"}
             || (call.name == "Bash" && !env.securityHook(CommandArg(call.input)).Allow?)
    ensures Dispatch(env, files, call).files == files
  {
  }

  /**
   * Read after Write shows what was written, as a text-mode read gives it:
   * exactly the written text when it has no carriage return.
   */
  lemma WriteThenRead(files: Files, p: string, c: string)
    ensures ReadFiles(WriteFile(files, p, c).files, [p]) == "---\n" + p + " ---\n" + Newlines(c) + "\n"
    ensures '\r' !in c ==> ReadFiles(WriteFile(files, p, c).files, [p]) == "---\n" + p + " ---\n" + c + "\n"
  {
    assert Frames(WriteFile(files, p, c).files, [p]) == [Frame(WriteFile(files, p, c).files, p)];
    if '\r' !in c {
      NewlinesWithoutCR(c);
    }
  }
}
