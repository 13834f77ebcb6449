# A verified model of autocoder's agent core

autocoder runs coding agents against a project directory under
`generations/`. This project models, in Dafny, four parts of it:

- **The Gemini tool-call loop.** `GeminiClient.query` stores a prompt. `receive_response` then sends the prompt to the model. It turns each reply into an `AssistantMessage`, runs every tool call the reply asks for, and sends the tool outputs back as a `UserMessage`. It does this up to 20 times. The tools are Read, Write, Edit and Bash, plus Glob, Grep and the feature-tracker tools, all found through a name table.
- **The spec-creation chat session.** A `SpecChatSession` turns what the agent SDK streams back into chunks for the UI and into a conversation history. It also notices when the spec file is written. A module-level registry keeps one session per project.
- **The projects router.** This covers the project-name validator and the decisions the create, delete, get-prompts and update-prompts routes make about the generations directory.
- **The message datatypes** the loop produces.

Each part is modelled with these collaborators as parameters:

- The remote model is a function from everything sent to the chat so far to the next reply. A reply is either a list of parts or an exception.
- The security hook, the shell, and the tools whose bodies are I/O or not shown (Glob, Grep, the feature tracker) are functions in `GeminiTools.Env`. The shell runs in the project directory: it takes the directory and gives back the one it leaves. Glob and Grep read the directory and change nothing. The feature tools take the directory and may change it.
- The project directory is a map from relative path to stored content. Read and Edit see the content as Python's text-mode read gives it: `\r\n` and a lone `\r` read as `\n` (`PyStrings.Newlines`).
- What the agent SDK streams for one query is a `SpecChat.Stream`: the messages yielded, then an optional exception.
- The generations directory is a map from project name to a project. A project has the `.agent.lock` flag and its prompt files. The get-prompts route reads them in text mode too, through `PyStrings.Newlines`.

Modules:

- `Wrappers`: Option and Result.
- `PyStrings`: the Python string operations the code relies on. These are substring `in`, `str.replace` (including the empty pattern), `str.split`/`join`, `str.strip()` with Python's whitespace set, and decimal formatting.
- `GeminiTypes`: the message and block datatypes.
- `GeminiTools`: the tools and the dispatch of one call.
- `GeminiClientModel`: the loop as a function, `Loop`, and its properties.
- `GeminiClientObject`: the `GeminiClient` class, whose `ReceiveResponse` while loop is proved equal to `Loop`.
- `SpecChat`: the session class and the pure effect of a stream.
- `SessionRegistry`: the registry class.
- `Projects`: the validator and the `ProjectStore` class.

`validate_project_name` uses `re.match` with `$`. Python's `$` also matches just before a final newline, so the model accepts exactly 1 to 50 characters of `[A-Za-z0-9_-]`, optionally followed by one `"\n"`. The code does this, and so does the model. `Projects.NewlineCaveat` pins it down on concrete names.

The function table holds the six built-in tools and the seven feature tools. The client's tool list (`gemini_client.py:79-96`) dereferences `feature_mcp` unconditionally, so a client with a tool table always has the feature tools too. The model uses that table.

## Model

| member | source | states |
|---|---|---|
| PyStrings.ParseNatStr | gemini_client.py:288 | the decimal text of a number reads back as that number, so `f"{n}"` loses nothing |
| PyStrings.Find | gemini_client.py:183-186 | the position found is an occurrence of the pattern |
| PyStrings.FindNone | gemini_client.py:183-186 | no position is found exactly when the pattern is not `in` the string |
| PyStrings.FindLeftmost | gemini_client.py:183-186 | no occurrence lies before the one found |
| PyStrings.InsertEverywhereIsJoin | gemini_client.py:186-187 | `s.replace("", x)` is `x.join([""] + list(s) + [""])`: `x` before every character of `s` and at the end, the characters in order in between |
| PyStrings.SplitPiecesAreFree | gemini_client.py:188-192 | the pieces between the occurrences of a separator contain no occurrence of it |
| PyStrings.JoinSplit | gemini_client.py:188-192 | joining the pieces with the separator gives back the original string |
| PyStrings.ReplaceIsJoinOfSplit | gemini_client.py:188-192 | `replace` puts the replacement at every occurrence, scanning left to right without overlaps |
| PyStrings.ReplaceAbsent | gemini_client.py:183-189 | replacing an absent pattern leaves the string unchanged |
| PyStrings.ReplaceUnique | gemini_client.py:190-192 | a pattern occurring exactly once is replaced exactly there |
| PyStrings.ReplaceSelf | gemini_client.py:190-192 | replacing a pattern by itself changes nothing |
| PyStrings.ContainsTransitive | gemini_client.py:183-187 | a substring of a substring is a substring |
| PyStrings.Strip | gemini_client.py:186-187 | `strip()` cuts whitespace only from the two ends, leaves neither end whitespace, and is empty exactly for all-whitespace input |
| PyStrings.StripCharacterized | gemini_client.py:186-187 | those facts pin the result down: any trimming of both ends that leaves no whitespace at either end is `strip()` |
| PyStrings.StripIdempotent | gemini_client.py:186-187 | stripping twice is stripping once |
| PyStrings.Newlines | gemini_client.py:156-157 | a text-mode read leaves no carriage return and is no longer than the stored text |
| PyStrings.NewlinesWithoutCR | gemini_client.py:156-157 | text without a carriage return reads back exactly as written |
| PyStrings.NewlinesIdempotent | gemini_client.py:156-157 | reading what a read gave changes nothing further |
| PyStrings.NewlinesExample | gemini_client.py:156-157 | "a\r\nb\rc\n" reads as "a\nb\nc\n": both `\r\n` and a lone `\r` become `\n` |
| GeminiTypes.ToolUsesMembers | gemini_types.py:22-24 | the tool calls of an assistant message are its tool-use blocks: every one of them, and nothing else |
| GeminiTypes.Defaults | gemini_types.py:16-28 | `is_error` defaults to false; both message kinds default to empty content |
| GeminiTools.Frames | gemini_client.py:151-163 | Read frames each path in request order: the text as a text-mode read gives it when the file exists, `[File not found]` otherwise |
| GeminiTools.EditContent | gemini_client.py:175-192 | Edit fails exactly when not even `old_string.strip()` occurs |
| GeminiTools.StripOccurs | gemini_client.py:183-187 | where `old_string` occurs, so does its stripped form |
| GeminiTools.DispatchAllFacts | gemini_client.py:308-350 | one result per call, in order, with the call's id; one response per call with its name and the same text |
| GeminiTools.EditReplacesEveryOccurrence | gemini_client.py:183-192 | an exact match replaces every occurrence: the content is cut at the occurrences and rejoined with `new_string` |
| GeminiTools.EditFallsBackToStripped | gemini_client.py:183-188 | failing an exact match, every occurrence of the stripped `old_string` is replaced |
| GeminiTools.EditUniqueOccurrence | gemini_client.py:190-192 | a unique occurrence is replaced in place, with prefix and suffix kept |
| GeminiTools.EditWhitespaceOnlyInsertsEverywhere | gemini_client.py:183-188 | an empty `old_string`, or an absent whitespace-only one (it strips to ""), is found everywhere: `new_string` goes before every character and at the end |
| GeminiTools.EditWhitespaceOnlyExample | gemini_client.py:185-188 | for example, editing "ab" with " " and "X" gives "XaXbX" |
| GeminiTools.EditMissingFile | gemini_client.py:177-179 | a missing file gives `Error: File <path> not found` and changes nothing |
| GeminiTools.EditNotFound | gemini_client.py:181-189 | when neither form occurs in the text as read, the error names the path, asks to check whitespace, and the file is unchanged |
| GeminiTools.EditSeesTextModeContent | gemini_client.py:181-189 | Edit matches against the text as read: a file holding "a\r\nb" reads as "a\nb", so `old_string` "a\r\nb" is not found |
| GeminiTools.WriteEditReadRoundTrip | gemini_client.py:151-197 | write, then edit a substring occurring once in the text as read, then read: the frame shows that text with the substring replaced; other files are untouched |
| GeminiTools.WriteEditReadPlainText | gemini_client.py:151-197 | without carriage returns in the content and the replacement, the frame shows the written content with that one substring replaced |
| GeminiTools.WriteThenRead | gemini_client.py:151-171 | Read after Write frames what was written as a text-mode read gives it, which is exactly the written text when it has no carriage return |
| GeminiTools.DispatchUnknownTool | gemini_client.py:312-334 | an unknown name gives `Error: Unknown tool <name>`, flagged as an error, with nothing changed |
| GeminiTools.DispatchFlagsExactlyRaises | gemini_client.py:312-334 | a raising tool gives `Error executing <name>: <e>`, flagged; a returning tool gives its text, unflagged |
| GeminiTools.FileToolsNeverFlag | gemini_client.py:165-197 | Read, Write and Edit with fitting arguments never flag an error, even when they return an error message |
| GeminiTools.BashBlockedNeverRuns | gemini_client.py:199-204 | a blocked command gives `Security Blocked: <reason>`, unflagged; the shell is never consulted and the directory is unchanged |
| GeminiTools.BashAllowedRunsInDirectory | gemini_client.py:206-217 | an allowed command runs in the project directory: the directory afterwards is the one the shell leaves, and the result is unflagged |
| GeminiTools.BashFlagsOnlyHookFaults | gemini_client.py:199-217 | a Bash result is flagged exactly when the security hook itself raises |
| GeminiTools.ReadOnlyToolsKeepFiles | gemini_client.py:150-240 | Read, Glob, Grep, an unknown tool and a Bash command the hook does not allow leave the directory unchanged |
| GeminiClientModel.ParseCallIdRoundTrip | gemini_client.py:288 | `call_{turn}_{k}` reads back as its turn and index |
| GeminiClientModel.CallIdInjective | gemini_client.py:288 | different (turn, index) pairs give different ids |
| GeminiClientModel.ParseFacts | gemini_client.py:278-295 | the calls are the message's tool-use blocks, numbered `call_{turn}_0, 1, ...`; there are none exactly when no part carries a call |
| GeminiClientModel.Turn | gemini_client.py:264-364 | a turn continues exactly when the reply asks for a tool; it stops with a fault exactly when the endpoint raised, and then yields `Error: <e>` |
| GeminiClientModel.TurnShape | gemini_client.py:278-353 | a stopping turn yields an assistant message without calls; a continuing one yields numbered calls and a user message answering exactly those calls, in order |
| GeminiClientModel.LoopYieldsExchanges | gemini_client.py:260-364 | `receive_response` yields assistant messages at even positions, turn n's numbering its calls for n; each is followed by the user message answering exactly its calls, in order; a message without calls is last |
| GeminiClientModel.ExchangesAlternate | gemini_client.py:298-353 | assistant messages stand exactly at the even positions |
| GeminiClientModel.ExchangesStopAfterNoCalls | gemini_client.py:298-302 | the loop ends right after an assistant message without tool calls |
| GeminiClientModel.LoopSendsAtMostCap | gemini_client.py:256-268 | `receive_response` sends its prompt first, keeps earlier history, sends at most 20 times and yields at most 40 messages |
| GeminiClientModel.AlwaysCallingRunsToCap | gemini_client.py:256-356 | if every reply asks for a tool, the loop runs to the cap with one exchange per turn |
| GeminiClientModel.AlwaysCallingYieldsTwentyExchanges | gemini_client.py:256-353 | if every reply asks for a tool, there are exactly 20 sends and 20 assistant plus 20 user messages, alternating |
| GeminiClientModel.FaultEndsRun | gemini_client.py:359-364 | a run that stops on a fault ends with one message whose only block is `Error: <e>` for the reply that raised |
| GeminiClientModel.Ids | gemini_client.py:288-295 | the ids of a list of calls, in order |
| GeminiClientModel.CallIdsStep | gemini_client.py:288-295 | the ids of a run are those of its first assistant message, then those of the later exchanges |
| GeminiClientModel.HeadNumbered | gemini_client.py:288-295 | the ids of a message numbered for a turn are `call_{turn}_0`, `call_{turn}_1`, ... in order |
| GeminiClientModel.DistinctAcrossTurns | gemini_client.py:261-288 | ids of one turn and distinct ids of later turns are all distinct |
| GeminiClientModel.ExchangesHaveDistinctIds | gemini_client.py:261-295 | in a run, every call id is distinct and belongs to a later turn |
| GeminiClientModel.LoopIdsDistinct | gemini_client.py:261-295 | no two tool calls of one `receive_response` share an id, within a reply or across turns |
| GeminiClientObject.GeminiClient.constructor | gemini_client.py:39-71 | a new client has no pending message and has sent nothing |
| GeminiClientObject.GeminiClient.Query | gemini_client.py:243-245 | `query` stores the message and changes nothing else |
| GeminiClientObject.GeminiClient.ExecuteRead | gemini_client.py:151-163 | the loop over the paths gives the frames joined by newlines |
| GeminiClientObject.GeminiClient.RunCall | gemini_client.py:308-350 | running one call gives the dispatch result, its response, and the directory it leaves |
| GeminiClientObject.GeminiClient.ParseReply | gemini_client.py:274-295 | the loop over the parts builds the assistant content and the numbered calls |
| GeminiClientObject.GeminiClient.RunCalls | gemini_client.py:304-350 | the loop over the calls collects results and responses in order, threading the directory |
| GeminiClientObject.GeminiClient.RunTurn | gemini_client.py:260-364 | one pass sends the payload, then yields and continues exactly as one turn of the loop |
| GeminiClientObject.GeminiClient.ReceiveResponse | gemini_client.py:247-364 | with no pending message (or an empty one) nothing is sent or yielded; otherwise `pending_message` is cleared and the output, the history sent and the directory are those of the loop |
| SpecChat.ThenWellFormed | server/services/spec_chat_session.py:183-236 | handling blocks one after another keeps the invariant of what they yield |
| SpecChat.BlockWellFormed | server/services/spec_chat_session.py:191-236 | each block yields a text chunk iff it adds a history entry of that text; a spec write both completes and yields `spec_complete` |
| SpecChat.BlocksWellFormed | server/services/spec_chat_session.py:188-236 | the invariant holds over an assistant message's blocks |
| SpecChat.StreamWellFormed | server/services/spec_chat_session.py:183-247 | over any stream, the entries match the text chunks one to one; the session completes exactly when a `spec_complete` chunk is yielded, naming app_spec.txt; `file_written` names initializer_prompt.md and not the spec |
| SpecChat.TextBlockEffect | server/services/spec_chat_session.py:191-203 | a non-empty text yields one chunk and one assistant entry; an empty text yields nothing |
| SpecChat.WriteBlockEffect | server/services/spec_chat_session.py:220-236 | a Write completes exactly when its path contains app_spec.txt; otherwise one to initializer_prompt.md only yields `file_written` |
| SpecChat.ChunkTextsAppend | server/services/spec_chat_session.py:196 | the text chunks of two streams in a row are the texts of each, in order |
| SpecChat.EntryTextsAppend | server/services/spec_chat_session.py:199-203 | the same for history entries |
| SpecChat.SystemPrompt | server/services/spec_chat_session.py:85-87 | a skill without `$ARGUMENTS` is used unchanged |
| SpecChat.SpecChatSession.constructor | server/services/spec_chat_session.py:37-51 | a new session has no client, no history and is not complete |
| SpecChat.SpecChatSession.Close | server/services/spec_chat_session.py:53-62 | an entered client is exited and forgotten, even if exiting raises; otherwise nothing changes; afterwards no entered client remains, so closing again is a no-op |
| SpecChat.SpecChatSession.HandleBlock | server/services/spec_chat_session.py:188-236 | one block updates the history and `complete` and yields chunks as its effect says |
| SpecChat.SpecChatSession.HandleBlocks | server/services/spec_chat_session.py:188-236 | the loop over the blocks does the same for the whole message |
| SpecChat.SpecChatSession.QueryClaude | server/services/spec_chat_session.py:168-247 | without a client nothing happens; otherwise the chunks, the history appended and `complete` are those of the stream; `complete` is never reset |
| SpecChat.SpecChatSession.SendMessage | server/services/spec_chat_session.py:128-166 | without a client, exactly one "Session not initialized" error chunk and no change; otherwise the user entry is stored before the response, and the last chunk is `response_done`, or `Error: <e>` when the stream raises |
| SpecChat.SpecChatSession.Start | server/services/spec_chat_session.py:64-126 | a missing skill is reported; a failed construction keeps the old client; a failed enter keeps the unentered client; otherwise the greeting streams into chunks ending in `response_done` or the start error |
| SpecChat.SpecChatSession.IsComplete | server/services/spec_chat_session.py:249-251 | reports `complete` |
| SpecChat.SpecChatSession.GetMessages | server/services/spec_chat_session.py:253-255 | returns the current history list, a copy of the list as `messages.copy()` makes |
| SessionRegistry.Without | server/services/spec_chat_session.py:275-294 | popping a key removes exactly it, keeps the other keys, keeps them distinct, and leaves an absent key's order as it was |
| SessionRegistry.WithoutKeepsOrder | server/services/spec_chat_session.py:275-294 | popping the key at position k gives the keys before it and after it, in their order |
| SessionRegistry.ReinsertOrder | server/services/spec_chat_session.py:275-277 | pop then insert moves the key to the end and keeps the keys distinct |
| SessionRegistry.Registry.constructor | server/services/spec_chat_session.py:259 | the registry starts empty |
| SessionRegistry.Registry.GetSession | server/services/spec_chat_session.py:263-266 | the session filed under the name, if any; it belongs to that project |
| SessionRegistry.Registry.ListSessions | server/services/spec_chat_session.py:304-307 | exactly the current keys, each once, in insertion order |
| SessionRegistry.Registry.CreateSession | server/services/spec_chat_session.py:269-286 | the name maps to a fresh session and other keys are unchanged; the replaced session is closed exactly once, after the update |
| SessionRegistry.Registry.RemoveSession | server/services/spec_chat_session.py:289-301 | the name is gone and other keys are unchanged; the popped session is closed exactly once; an absent name is a no-op |
| SessionRegistry.Registry.CleanupAllSessions | server/services/spec_chat_session.py:310-322 | the map ends empty and every session it held is closed exactly once |
| Projects.LeadingRun | server/routers/projects.py:65 | the greedy repetition takes the longest run of name characters, at most 50 |
| Projects.MatchesNamePatternExactly | server/routers/projects.py:65 | the pattern matches exactly 1-50 name characters, optionally followed by one newline |
| Projects.ValidateProjectName | server/routers/projects.py:63-70 | accepted names (exactly those just described) come back unchanged; anything else is a 400 with the fixed detail |
| Projects.AcceptedNamesStayInGenerations | server/routers/projects.py:63-65 | an accepted name contains no `/`, `\` or `.` |
| Projects.ValidateIdempotent | server/routers/projects.py:70 | validating an accepted name again gives the same result |
| Projects.NewlineCaveat | server/routers/projects.py:65 | "abc\n" is accepted as is; "abc\n\n", "ab/c" and "" are rejected |
| Projects.ReadPrompt | server/routers/projects.py:188-195 | the file's text as a text-mode read gives it (`\r\n` and a lone `\r` read as `\n`, so no carriage return is returned) when it exists and reads, "" when it is missing or unreadable |
| Projects.ApplyUpdate | server/routers/projects.py:217-224 | only the prompt files given are written; every other file is unchanged |
| Projects.ReadAfterUpdate | server/routers/projects.py:188-224 | after an update, each written field reads back as a text-mode read of what was written, and each omitted field as before |
| Projects.ReadAfterPlainUpdate | server/routers/projects.py:188-224 | a written field without a carriage return reads back exactly as written |
| Projects.CrLfReadsAsLf | server/routers/projects.py:188-224 | an app spec written as "a\r\nb" reads back as "a\nb" |
| Projects.EmptyUpdateChangesNothing | server/routers/projects.py:217-224 | an update with every field `None` changes nothing |
| Projects.ProjectStore.CreateProject | server/routers/projects.py:102-126 | 400 for a bad name; 409 and no change when the project exists; otherwise the directory is scaffolded and the summary has no spec and stats 0/0/0.0 |
| Projects.ProjectStore.DeleteProject | server/routers/projects.py:151-173 | 400, 404 when missing, 409 and nothing deleted while locked, 500 when removal raises; otherwise exactly that project is gone |
| Projects.ProjectStore.GetProjectPrompts | server/routers/projects.py:176-201 | 400, 404, or the three prompt files as a text-mode read gives them, "" for one missing or unreadable |
| Projects.ProjectStore.UpdateProjectPrompts | server/routers/projects.py:204-226 | 400, 404, or each given field written to its file, with the lock, the other files and the other projects unchanged |

## Left out

- The network clients (`genai` chat sessions and `ClaudeSDKClient`) are replaced by the endpoint function and the `Stream` value.
- The remote model's tool declarations (`_tool_*` stubs and `_get_tools`) only describe tools to the remote model and are not modelled.
- `bash_security_hook` and the subprocess are abstract functions. The `security.py` policy is not part of this model. What a shell command does to the directory is whatever the shell function says; no command is interpreted.
- The bodies of Glob and Grep, and of the feature-tracker tools, are left out: they are filesystem, subprocess or database work. They are `Env.search` and `Env.feature`. The tracker's own database is not threaded from call to call: the same feature call on the same directory gives the same outcome.
- GeminiTools.Frames: a file that exists but fails to read would give `[Error: <e>]`. The in-memory directory has no unreadable files, so that branch of `_execute_read` is not modelled.
- Paths are compared as text. Python resolves `project_dir / p`, so "p", "./p" and "d/../p" name one file, and an absolute path or one with `..` can leave the project directory. The model treats different path texts as different files and has nothing outside the project directory. Directories are not in the model, so Read's `is_file()` test and Edit of a directory are not modelled.
- WriteEditReadRoundTrip: "other files are untouched" is stated for every other path text; a path text that names the same file in Python is a separate key in the model.
- Text-mode I/O is modelled for POSIX: Write (the Gemini tool, and `write_text` in the prompts route) stores the text as given, because newline translation on write is the identity there; every text-mode read (the Read and Edit tools, and `read_text` in the prompts route) goes through `PyStrings.Newlines`. A file that does not decode as UTF-8 is an unreadable file, which is not modelled (see `GeminiTools.Frames`).
- GeminiTools.WriteFile: the I/O failures that make Write and Edit return `Error writing …` or `Error editing …` are not modelled, for the same reason.
- SpecChat.SpecChatSession.GetMessages: `messages.copy()` copies only the list, so in Python the entry dicts stay shared with the caller, who can rewrite the session's history through them; entries are values in the model, so that aliasing is not captured.
- SpecChat.Display: a tool argument is a string, an integer, a boolean or a list. The endpoint sends numbers as doubles and may send null or nested objects, and `str()` of those shapes is not modelled; so a non-string Write `file_path` whose `str()` contains `app_spec.txt` completing the session is not captured.
- GeminiTools.RunTool: Python's message for keyword arguments that do not fit a built-in tool's signature is not modelled. Nor is the behaviour of ill-typed argument values. Both are the parameters `bindError` and `badValue`.
- An exception raised while tools run or results are built, outside the per-tool `try`, is not modelled. The loop's fault path covers only the endpoint raising.
- The text of the `parts` of a reply: the SDK's `part.text` accessor is modelled as the part's text, empty when it has none; SDK quirks when accessing it are not modelled.
- Async generators are modelled as the whole sequence they yield. A consumer that stops early is not modelled.
- Timestamps, logging, `print`, `created_at` and `_conversation_id` are left out; they do not affect behaviour.
- SpecChat.SpecChatSession.Start: reading the skill file, including the `errors="replace"` decode fallback, is a parameter (`skill`). So is the `cwd` option. The SDK receiving the query text is not recorded.
- SpecChat.Display: `repr` of strings inside list values ignores Python's choice of quote character and its escaping.
- Tool-result error logging in `_query_claude` (lines 238-247) only logs, so it yields nothing in the model.
- The registry lock and asyncio scheduling are left out. Each registry operation is one atomic map update followed by the closes, run sequentially.
- Projects.ProjectStore.DeleteProject: a failing `rmtree` can leave a partly deleted directory. The model keeps the project unchanged in that case.
- Projects.ProjectStore.CreateProject: what `scaffold_project_prompts` writes is a parameter, because `prompts.py` is not part of this model. Pydantic's own validation of the request body (`server/schemas.py`) is not modelled.
- `get_project`, `list_projects`, `get_project_stats` and its endpoint are not modelled. They read spec and test-count state from modules that are not part of this model, and the percentage is floating point.
