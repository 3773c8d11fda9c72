# A Dafny model of the LM / MCP chat orchestrator

The system is a console chat assistant. It forwards the user's lines to a local
LM server that speaks the OpenAI chat-completions protocol. When the LM answers
with a JSON tool call, the assistant runs that tool on one of several remote MCP
servers and feeds the result back to the LM for a final answer.

This project models the three pieces of sequential logic that decide what happens:

- **`ChatSession`** (`tool_call.dfy`, `chat_session.dfy`, `chat_loop.dfy`):
  - how the tool-call object is cut out of free-form LM text: fences removed, then the greedy first-`{`-to-last-`}` span;
  - the choice between a tool call and plain text;
  - first-match routing of a call across the clients;
  - classification of progress-style results;
  - how tools are described to the LM;
  - initialisation, discovery and clean-up of all clients;
  - how each turn of the chat loop extends the message history.
- **`MCPClient`** (`mcp_client.dfy`):
  - the session guard;
  - initialisation, with clean-up on failure;
  - the tag filter of the four listings;
  - `cleanup`, which never fails;
  - the bounded retry loop of `execute_tool`.
- **`LLMClient`** (`llm_client.dfy`):
  - the request both completion calls send;
  - the line framing of a streamed response: blank lines, the `lstrip` character set, `[DONE]`, one delta per line, and bad lines.

Supporting modules:

- `results.dfy` holds `Option`, `Result` and the Python exception kinds.
- `text.dfy` holds the Python `str` operations the code uses, stated over `seq<char>`.
- `json.dfy` holds JSON values, with dict lookup where the last duplicate key wins.

Everything outside the program is a parameter. This covers:

- the LM's reply to the n-th request;
- a remote server's answer to the n-th listing or call;
- whether connecting, opening the session, the handshake, or closing fails;
- `json.loads`: the value it returns, or the character offset where it raised `JSONDecodeError`;
- `str()` of a JSON value;
- the `:.1f` rendering of the percentage;
- the prompt template.

The client state records whether `session` is set, how many contexts the exit stack holds, and counters of the remote requests, clean-ups and releases.

What the code does, in the places where a reader might expect something else:

- A reply whose object lacks either `tool` or `arguments` is plain text.
- `arguments` is never checked. A non-object `arguments` value is passed on to the server as it is.
- A session has no terminal "closed" state. `cleanup` only empties the exit stack and clears `session`, and `session` stays set when closing fails.
- `process_llm_response` never raises.
  - A `ValueError` shows the LM's reply unchanged, whether it comes from routing ("no client has the tool") or from the remote tool itself. So does a JSON decode error.
  - Any other error becomes the assistant turn `Error executing tool: ...`.
- The tool's result is passed to the second completion as a system turn, but it is never stored in the history.
- JSON integers and floats stay distinct (`1` and `1.0`), so `str()` of a value, and the ZeroDivisionError text of a progress note, can tell them apart.

## Model

| member | source | states |
|---|---|---|
| `ToolCall.StripFences` | src/llm_controls/chat_session.py:77-78 | removing fences never lengthens the text |
| `ToolCall.NoFenceUnchanged` | src/llm_controls/chat_session.py:77-78 | text without backticks is left as it is by fence removal |
| `ToolCall.ClosingFenceRemoved` | src/llm_controls/chat_session.py:77-78 | a trailing fence after backtick-free text is deleted and nothing else is |
| `ToolCall.BareFenceRemoved` | src/llm_controls/chat_session.py:77-78 | an opening fence not followed by `json` is deleted on its own |
| `ToolCall.UntaggedBlockUnwrapped` | src/llm_controls/chat_session.py:77-78 | an untagged fenced block unwraps to its body |
| `ToolCall.TaggedBlockUnwrapped` | src/llm_controls/chat_session.py:77-78 | a block opened by a fence tagged `json`, in any letter case, unwraps to its body |
| `ToolCall.FencedBlockUnwrapped` | src/llm_controls/chat_session.py:77-78 | any fenced block, tagged or not, unwraps to its body, except an untagged one whose body itself starts with `json` |
| `ToolCall.SpanBounds` | src/llm_controls/chat_session.py:82 | the greedy match runs from the first `{` to the last `}`, and it exists exactly when some `{` precedes some `}` |
| `ToolCall.Span` | src/llm_controls/chat_session.py:82-86 | a match exists iff a `{` precedes a `}`, and the matched text starts with `{` and ends with `}` |
| `ToolCall.CleanText` | src/llm_controls/chat_session.py:77-79 | the text searched for an object: fences removed, then backticks, spaces and newlines stripped from both ends (see `ToolCall.ExtractsEmbeddedObject` and `ToolCall.ExtractsFencedObject`) |
| `ToolCall.CleanJson` | src/llm_controls/chat_session.py:77-86 | fails with the ValueError "No valid JSON found in response" exactly when the cleaned text has no `{` before a `}`; otherwise returns the greedy span of the cleaned text |
| `ToolCall.SpanOfFramed` | src/llm_controls/chat_session.py:82-86 | the span is exactly an inner object, braces included, when no `{` comes before it and no `}` after it |
| `ToolCall.ExtractsEmbeddedObject` | src/llm_controls/chat_session.py:77-86 | an object surrounded by brace-free prose is extracted exactly |
| `ToolCall.ExtractsFencedObject` | src/llm_controls/chat_session.py:77-86 | an object on its own lines inside a fence (tagged `json` or not) is extracted exactly |
| `Text.StripChars` | src/llm_controls/chat_session.py:79 | `strip(chars)` removes the longest run of set characters from each end and returns the contiguous rest |
| `Text.StripAround` | src/llm_controls/chat_session.py:79 | stripping text around a piece that starts and ends outside the set only trims what surrounds the piece |
| `Text.LStrip` | src/llm_controls/llm_client.py:91 | `lstrip(chars)` removes every leading character in the set, however many there are |
| `Text.Lower` | src/llm_controls/chat_session.py:247 | lower-casing keeps the length and maps each character |
| `JsonValues.Lookup` | src/llm_controls/chat_session.py:146-153 | a key is found iff some member has it, and the value is that of the last such member |
| `ChatSession.Classify` | src/llm_controls/chat_session.py:112-121 | a dict result with `progress` is a progress report with that progress, and with its `total` or the integer 1 when absent; anything else is plain content, kept unchanged |
| `ChatSession.RouteFrom` | src/llm_controls/chat_session.py:104-129 | clients before the search point are untouched; clients after the one the search stopped at are untouched; a search that stops nowhere raises "No available client has tool: ..." |
| `ChatSession.Route` | src/llm_controls/chat_session.py:104-129 | `_execute_tool` over all clients from the first; keeps the number of clients (its first-match rule is `ChatSession.RouteFirstMatch`) |
| `ChatSession.RouteFromDeclined` | src/llm_controls/chat_session.py:104-106 | a client that lists its tools without the requested one is passed over, with its listing recorded |
| `ChatSession.RouteFromStops` | src/llm_controls/chat_session.py:105-127 | a client whose listing fails or that offers the tool is where the search stops |
| `ChatSession.RouteFromPassedOver` | src/llm_controls/chat_session.py:104-106 | every client passed over listed its tools successfully, offered none of that name, and was asked exactly once |
| `ChatSession.RouteFromStoppedAt` | src/llm_controls/chat_session.py:105-127 | the client the search stopped at either failed to list, and that error propagates, or offers the tool, which runs there with 2 attempts and a classified result or the call's own error |
| `ChatSession.RouteFirstMatch` | src/llm_controls/chat_session.py:104-129 | the search stops at the first client that does not decline; later clients are never contacted; the tool is reported missing exactly when every client declines |
| `ChatSession.UnknownToolReported` | src/llm_controls/chat_session.py:129 | a tool nobody offers raises the ValueError naming it, after each client was asked once |
| `ChatSession.CallIn` | src/llm_controls/chat_session.py:143-147 | a reply holds a call exactly when its span parses to an object with both `tool` and `arguments`, and then yields those two values |
| `ChatSession.ProcessReply` | src/llm_controls/chat_session.py:142-163 | a non-call is returned unchanged with no client contacted; for a call, a success yields the tool response, a ValueError yields the original text, and any other error yields "Error executing tool: " and its message |
| `ChatSession.ProseIsNotACall` | src/llm_controls/chat_session.py:142-158 | prose with no `{` and no backtick is shown as it is and contacts no client |
| `ChatSession.UnknownToolShowsReply` | src/llm_controls/chat_session.py:152-158 | a call to a tool no client offers shows the LM's reply unchanged |
| `ChatSession.UninitializedClientReported` | src/llm_controls/chat_session.py:159-163 | a call reaching a first client without a session becomes "Error executing tool: Server <name> not initialized" |
| `ChatSession.FencedCallFound` | src/llm_controls/chat_session.py:143-147 | a fenced object with `tool` and `arguments` is recognised as a call to that tool with those arguments |
| `ChatSession.FirstClientRuns` | src/llm_controls/chat_session.py:104-121 | a tool the first client offers runs there, and its first successful result is the response |
| `ChatSession.FencedCallRunsOnFirstClient` | src/llm_controls/chat_session.py:142-154 | a fenced call to a tool the first client offers comes back as that tool's classified result |
| `ChatSession.ArgLine` | src/llm_controls/chat_session.py:178-181 | every argument line starts with "- " |
| `ChatSession.ArgLines` | src/llm_controls/chat_session.py:177-181 | one line per schema property, in property order |
| `ChatSession.FormatForLlm` | src/llm_controls/chat_session.py:165-187 | `format_for_llm`: the block for one tool (its line structure is stated by `ChatSession.FormatForLlmLines` and `ChatSession.ArgumentsOnePerLine`) |
| `ChatSession.JoinAppend` | src/llm_controls/chat_session.py:186 | joining two non-empty lists puts exactly one separator between their joins |
| `ChatSession.HeaderText` | src/llm_controls/chat_session.py:183-187 | the block header is the lines "", "Tool: name", "Description: ..." and "Arguments:" |
| `ChatSession.FormatForLlmLines` | src/llm_controls/chat_session.py:174-187 | a tool block is its header lines followed by its argument lines, or by one empty line when there are none |
| `ChatSession.ArgumentsOnePerLine` | src/llm_controls/chat_session.py:174-187 | when no text holds a line break, splitting a block gives the header, then exactly one `- name: description` line per property in order, with "No description" as the default and " (required)" exactly for required names |
| `ChatSession.ToolsDescription` | src/llm_controls/chat_session.py:216-223 | the "Available tools" text: one block per tool, in tool order, joined by newlines (see `ChatSession.ToolsDescriptionAppend`) |
| `ChatSession.ToolsDescriptionAppend` | src/llm_controls/chat_session.py:216-223 | each further tool adds its block on a new line after those already described |
| `ChatSession.BuildSystemMessage` | src/llm_controls/chat_session.py:214-225 | the message has the system role, and its content is the template filled with the tools' description |
| `ChatSession.CleanupAll` | src/llm_controls/chat_session.py:320-324 | every client is cleaned up, in order, whatever happened to the others |
| `ChatSession.CleanupAllReleases` | src/llm_controls/chat_session.py:320-324 | after one pass no client holds a connection; after two passes none holds a session, and each was released at most once |
| `ChatSession.InitializeFrom` | src/llm_controls/chat_session.py:191-198 | a failure names a client at or after the start; on success the clients before the start are untouched |
| `ChatSession.InitializeAll` | src/llm_controls/chat_session.py:189-198 | `initialize_clients` from the first client; keeps the number of clients (its outcome is `ChatSession.InitializeFromOutcome`) |
| `ChatSession.InitializeFromOutcome` | src/llm_controls/chat_session.py:191-198 | initialisation succeeds iff every client's does, and then every client holds a session; after a failure, earlier clients had succeeded, the failing client's error is re-raised, and no client holds a connection |
| `ChatSession.GatheredMembership` | src/llm_controls/chat_session.py:202-212 | a tool is gathered iff some client listed it successfully |
| `ChatSession.GetAvailableTools` | src/llm_controls/chat_session.py:202-212 | the tools of the clients that listed successfully, in client order; a failing client is skipped; each client is asked once |
| `McpClient.NewClient` | src/llm_controls/mcp_http_client.py:38-42 | a new client has no session and holds nothing |
| `McpClient.Cleanup` | src/llm_controls/mcp_http_client.py:144-152 | never fails; empties the exit stack; releases the connection iff something was held; clears the session unless closing raised |
| `McpClient.CleanupTwice` | src/llm_controls/mcp_http_client.py:138-152 | two clean-ups release at most once and leave no session |
| `McpClient.Initialization` | src/llm_controls/mcp_http_client.py:53-67 | succeeds iff connect, open and handshake all do, and only then sets the session; on failure it re-raises the first error after a clean-up that leaves nothing held |
| `McpClient.FailedInitializationLeaksNothing` | src/llm_controls/mcp_http_client.py:53-67 | a failed initialisation leaves no session and nothing held, and releases what it had opened |
| `McpClient.KeepAppend` | src/llm_controls/mcp_http_client.py:91-96 | filtering distributes over concatenation, so order is kept |
| `McpClient.KeepMembership` | src/llm_controls/mcp_http_client.py:91-96 | an entity is kept iff some tuple tagged with the key carries it |
| `McpClient.ListEntities` | src/llm_controls/mcp_http_client.py:85-96 | without a session it raises "Server <name> not initialized" before any request; otherwise it makes one request and keeps the entities tagged with the key, or propagates the request's error |
| `McpClient.ListingsFilterByTheirKey` | src/llm_controls/mcp_http_client.py:108-136 | the four listings keep exactly the entities tagged `tools`, `resources`, `resourceTemplates` and `prompts` respectively |
| `McpClient.ListTools` | src/llm_controls/mcp_http_client.py:98-108 | `list_tools`: the entities tagged `tools` (stated by `McpClient.ListingsFilterByTheirKey`) |
| `McpClient.ListResources` | src/llm_controls/mcp_http_client.py:110-118 | `list_resources`: the entities tagged `resources` (stated by `McpClient.ListingsFilterByTheirKey`) |
| `McpClient.ListResourceTemplates` | src/llm_controls/mcp_http_client.py:120-128 | `list_resource_templates`: the entities tagged `resourceTemplates` (stated by `McpClient.ListingsFilterByTheirKey`) |
| `McpClient.ListPrompts` | src/llm_controls/mcp_http_client.py:130-136 | `list_prompts`: the entities tagged `prompts` (stated by `McpClient.ListingsFilterByTheirKey`) |
| `McpClient.RetryFrom` | src/llm_controls/mcp_http_client.py:185-203 | at most the remaining attempts; one sleep fewer than attempts; every earlier attempt failed; the result is the last attempt's; a failure means all attempts were used |
| `McpClient.Retry` | src/llm_controls/mcp_http_client.py:185-203 | with no retries nothing is attempted and the result is None; otherwise at least one attempt is made and the retry bounds hold |
| `McpClient.ExecuteTool` | src/llm_controls/mcp_http_client.py:182-203 | without a session it raises before any attempt; otherwise it returns the first successful attempt, or re-raises the last failure after exactly `retries` attempts, sleeping between attempts |
| `McpClient.FirstSuccessReturned` | src/llm_controls/mcp_http_client.py:185-191 | the first success ends the loop: k earlier failures give k+1 attempts and k sleeps |
| `McpClient.AllAttemptsFail` | src/llm_controls/mcp_http_client.py:193-203 | when every attempt fails, exactly `retries` attempts and `retries-1` sleeps occur, and the last error is re-raised unwrapped |
| `McpClient.ExecuteToolLoop` | src/llm_controls/mcp_http_client.py:182-203 | the `while` loop as written meets the same promises as `ExecuteTool` |
| `LlmClient.ChatRequest` | src/llm_controls/llm_client.py:37-45 | posts to base URL + "/chat/completions" with the given messages, temperature, token limit and model, not streaming |
| `LlmClient.StreamRequest` | src/llm_controls/llm_client.py:74-82 | the same endpoint and fields, streaming |
| `LlmClient.ChatAndStreamDifferOnlyInStream` | src/llm_controls/llm_client.py:76-82 | the two requests differ in the `stream` flag only |
| `LlmClient.CleanLine` | src/llm_controls/llm_client.py:91 | `line.lstrip('data: ').strip()` (see `LlmClient.DataPrefixRemoved` and `LlmClient.LStripEatsPayload`) |
| `LlmClient.DataPrefixRemoved` | src/llm_controls/llm_client.py:91 | `data: ` is removed from a payload that starts outside the set {d, a, t, :, space} |
| `LlmClient.LStripEatsPayload` | src/llm_controls/llm_client.py:91 | because a set is stripped, leading payload characters from the set are eaten too (`data: true` cleans to `rue`) |
| `LlmClient.Index0` | src/llm_controls/llm_client.py:97 | `[0]` succeeds exactly on a non-empty list or string, and gives a list's first item; an empty list or string and a dict raise IndexError or KeyError; any other value raises TypeError "'<type>' object is not subscriptable" |
| `LlmClient.DeltaOf` | src/llm_controls/llm_client.py:96-100 | a non-object event raises AttributeError; an object without `choices` yields ""; when `choices` is a list whose first item is an object, a missing `delta` yields "", an object `delta` yields its `content` or "", and any other `delta` raises AttributeError; a first item that is not an object raises AttributeError; an empty `choices` list raises IndexError and a non-list `choices` raises; each AttributeError names the offending value's type |
| `LlmClient.NonDictNamedInError` | src/llm_controls/llm_client.py:97 | a list event fails with "'list' object has no attribute 'get'", and a string as first choice with "'str' object has no attribute 'get'" |
| `LlmClient.MissingContentYieldsEmpty` | src/llm_controls/llm_client.py:96-100 | any event whose first choice has no `delta`, or a `delta` without `content`, yields "", whatever other members the objects carry |
| `LlmClient.LineStep` | src/llm_controls/llm_client.py:89-107 | a line is skipped iff blank; it stops iff it cleans to `[DONE]`; otherwise it raises the decode error at the parser's offset when the cleaned text does not parse, and when it parses it emits the event's delta or raises the error extracting it raised; a yielded chunk is always the event's delta |
| `LlmClient.DecodeErrorText` | src/llm_controls/llm_client.py:103-107 | `str()` of the re-raised `JSONDecodeError`: its message comes first, followed by the line, column and offset of the failure |
| `LlmClient.SingleLinePosition` | src/llm_controls/llm_client.py:103-107 | in a line-free document the failure is on line 1, at column offset + 1 |
| `LlmClient.DecodeFailure` | src/llm_controls/llm_client.py:102-107 | the re-raised error is a `JSONDecodeError` whose text starts with "Failed to decode LLM stream data: " and the cleaned line |
| `LlmClient.YieldingLineEmits` | src/llm_controls/llm_client.py:94-101 | a line that parses to an event with a delta emits exactly that delta |
| `LlmClient.Run` | src/llm_controls/llm_client.py:89-107 | at most one chunk per line; a stop or failure comes from some line; running out means every line was skipped or yielded |
| `LlmClient.Frame` | src/llm_controls/llm_client.py:83-107 | `chat_stream` over a response's lines: each line's effect, run in order (see `LlmClient.RunAt`, `LlmClient.DoneEndsStream`, `LlmClient.BadLineRaises`, `LlmClient.ChunkPerYieldingLine`) |
| `LlmClient.Effects` | src/llm_controls/llm_client.py:89 | one effect per line, in line order |
| `LlmClient.EffectsAppend` | src/llm_controls/llm_client.py:89 | the effects of a split response are the effects of its parts |
| `LlmClient.EffectsConcat` | src/llm_controls/llm_client.py:89 | the effects of concatenated lines are the concatenated effects |
| `LlmClient.RunAppend` | src/llm_controls/llm_client.py:89-107 | the line loop is compositional: the second part runs only when the first neither stopped nor failed |
| `LlmClient.RunAt` | src/llm_controls/llm_client.py:89-107 | what one line does once the lines before it ran without ending |
| `LlmClient.SkipIsNeutral` | src/llm_controls/llm_client.py:90 | a skipped line changes nothing |
| `LlmClient.BlankLineSkipped` | src/llm_controls/llm_client.py:89-90 | removing a blank line anywhere leaves the stream as it is |
| `LlmClient.DoneEndsStream` | src/llm_controls/llm_client.py:92-93 | the first `[DONE]` ends the stream and nothing after it is read |
| `LlmClient.BadLineRaises` | src/llm_controls/llm_client.py:102-107 | a line that does not parse raises the decode error, with the parser's document and offset, and is not dropped; chunks yielded earlier stay |
| `LlmClient.OneChunkPerLine` | src/llm_controls/llm_client.py:94-101 | yielding effects give exactly one chunk each, in order, and the stream runs out normally |
| `LlmClient.ChunkPerYieldingLine` | src/llm_controls/llm_client.py:94-101 | a response whose every line is non-blank, not `[DONE]`, and parses to an event with a delta yields exactly one chunk per line, that line's delta, in line order, and runs to its end |
| `ChatLoop.Ask` | src/llm_controls/chat_session.py:254-256 | each completion call is recorded once, after the earlier ones, and its reply is that request's |
| `ChatLoop.ProgressText` | src/llm_controls/chat_session.py:267-271 | the note is "Progress: p/t (x%)" exactly when both values are numbers, the total is non-zero and the division does not overflow; a non-number raises TypeError; with a float operand, an int of magnitude 2^1024 - 2^970 or more raises OverflowError "int too large to convert to float" before the zero test; two ints whose exact quotient reaches that magnitude raise OverflowError "integer division result too large for a float"; otherwise a zero total raises ZeroDivisionError, whose text says "float" exactly when either value is a float |
| `ChatLoop.FittingIntsDivide` | src/llm_controls/chat_session.py:270 | ints that fit a float, divided by a non-zero int, always give a note |
| `ChatLoop.HugeIntOverflows` | src/llm_controls/chat_session.py:270 | an int outside the float range raises OverflowError both divided by 1 and as the divisor of a float, with the two texts Python uses |
| `ChatLoop.HugeIntsWithSmallQuotientDivide` | src/llm_controls/chat_session.py:270 | two equal ints far outside the float range still give a note, since int division converts only the quotient |
| `ChatLoop.Conclude` | src/llm_controls/chat_session.py:277-294 | the second completion sees the history plus the tool's result as a system turn, at the default temperature; a failure appends exactly its "Error occurred: ..." turn, a non-empty answer appends exactly that answer, and an empty answer appends nothing |
| `ChatLoop.AfterTool` | src/llm_controls/chat_session.py:262-294 | after a tool ran, the raw reply is stored first and only non-user turns follow; the clients are unchanged; at most one more request is sent, at the default temperature and ending in the tool's result; when none is sent, a progress note failed and its error turn ends the history |
| `ChatLoop.AfterToolOutcome` | src/llm_controls/chat_session.py:262-312 | a failed progress note appends exactly the raw reply and one "Error occurred: ..." turn, and sends no second request; otherwise exactly one more request is sent, whose messages are the history, the raw reply, the progress turn and the tool's result, and its outcome appends one error turn, the non-empty answer, or nothing |
| `ChatLoop.Respond` | src/llm_controls/chat_session.py:259-298 | after the first reply: 1 to 3 non-user turns are appended after the history, at most one more request is sent, and the number of clients is kept |
| `ChatLoop.RespondWith` | src/llm_controls/chat_session.py:259-298 | the same for a processed reply, and the clients are exactly those the tool call left |
| `ChatLoop.RespondDispatch` | src/llm_controls/chat_session.py:260-298 | the clients after the reply are those `process_llm_response` left, with their counters; a plain-text result (the reply, or "Error executing tool: ...") is appended as the assistant's turn with no further request; a tool result continues in `AfterTool` |
| `ChatLoop.Turn` | src/llm_controls/chat_session.py:251-298 | a turn appends the user turn and then 1 to 3 non-user turns; it sends 1 or 2 requests, the first at temperature 0.1 with the history and the user turn |
| `ChatLoop.PlainReplyShown` | src/llm_controls/chat_session.py:295-298 | a plain reply appends exactly the user turn and the reply |
| `ChatLoop.FailedCompletionReported` | src/llm_controls/chat_session.py:303-312 | a failing completion appends the user turn and exactly one "Error occurred: ..." system turn |
| `ChatLoop.TurnResponds` | src/llm_controls/chat_session.py:251-260 | after a successful first completion, a turn continues from the history with the user turn and the one recorded request |
| `ChatLoop.TurnKeepsRoutedClients` | src/llm_controls/chat_session.py:260 | the clients leave a turn as the tool call left them, so listing and call counters carry into the next turn |
| `ChatLoop.ToolFailureShownInTurn` | src/llm_controls/chat_session.py:295-298 | a call reaching an uninitialised first client appends the user turn and "Error executing tool: Server <name> not initialized" as the assistant's turn, after one request |
| `ChatLoop.FailedProgressNoteReported` | src/llm_controls/chat_session.py:262-312 | a progress note that raises appends the user turn, the raw reply and one "Error occurred: ..." turn, after one request |
| `ChatLoop.ZeroTotalReported` | src/llm_controls/chat_session.py:270 | an int progress over a total of 0 ends the turn with "Error occurred: division by zero" |
| `ChatLoop.FailedSecondCompletionReported` | src/llm_controls/chat_session.py:277-312 | a failing second completion appends the user turn, the raw reply, the progress turn if any and one "Error occurred: ..." turn, after two requests |
| `ChatLoop.ToolTurnHistory` | src/llm_controls/chat_session.py:262-294 | a tool turn appends the user turn, the raw reply, the optional progress turn, and the final answer only if it is non-empty; the tool's result is not stored |
| `ChatLoop.StepWith` | src/llm_controls/chat_session.py:241-312 | an iteration only extends the history; leaving the loop changes nothing |
| `ChatLoop.StepAsWritten` | src/llm_controls/chat_session.py:241-312 | as written, end of input does not leave the loop; it appends an error turn |
| `ChatLoop.Step` | src/llm_controls/chat_session.py:241-312 | with end of input handled like an interrupt, both leave the loop and change nothing |
| `ChatLoop.LineControl` | src/llm_controls/chat_session.py:243-251 | blank input is skipped; quit/exit/stop in any case leaves the loop; anything else is a turn on the stripped line |
| `ChatLoop.LoopWith` | src/llm_controls/chat_session.py:241-312 | the loop keeps the number of clients, and the history before it is a prefix of the history after it |
| `ChatLoop.HistoryOnlyGrows` | src/llm_controls/chat_session.py:241-312 | the history before the loop is a prefix of the history after it |
| `ChatLoop.LoopStopsAtFirstExit` | src/llm_controls/chat_session.py:241-302 | the loop ends at the first input that leaves it, and later inputs are never read |
| `ChatLoop.EndOfInputNeverEnds` | src/llm_controls/chat_session.py:243 | as written, any number of end-of-input reads never ends the loop; each adds one error turn |
| `ChatLoop.EndOfInputEnds` | src/llm_controls/chat_session.py:300-302 | with the correction, end of input ends the loop at once |
| `ChatLoop.RunWith` | src/llm_controls/chat_session.py:235-315 | `chat_loop`: initialise, discover the tools, start the history, loop, clean up (stated by `ChatLoop.SessionReleasesClients` and `ChatLoop.SessionStartsFromHistory`) |
| `ChatLoop.Run` | src/llm_controls/chat_session.py:235-315 | the session with end of input ending the loop (see `ChatLoop.EndOfInputEndsSession`) |
| `ChatLoop.RunAsWritten` | src/llm_controls/chat_session.py:235-315 | the session as written (see `ChatLoop.EndOfInputNeverEndsSession`) |
| `ChatLoop.EndOfInputNeverEndsSession` | src/llm_controls/chat_session.py:243 | as written, a session that meets end of input any number of times has not ended, so its `finally` clean-up has not run, and its history ends with one error turn per attempt |
| `ChatLoop.EndOfInputEndsSession` | src/llm_controls/chat_session.py:300-315 | with the correction, end of input ends the session: the history is the starting one and every client was cleaned up and holds nothing |
| `ChatLoop.SessionReleasesClients` | src/llm_controls/chat_session.py:235-315 | whenever the session ends, every client was cleaned up and holds nothing; after a failed initialisation, every client was cleaned up twice and holds no session |
| `ChatLoop.InitializeCleansUp` | src/llm_controls/chat_session.py:191-198 | a failed initialisation cleans every client up before re-raising |
| `ChatLoop.SessionStartsFromHistory` | src/llm_controls/chat_session.py:236-239 | the conversation starts from the given history or, when none is given, from the system message for the discovered tools, and only grows from there |

## Left out

- The HTTP and SSE transports, `ClientSession`, `AsyncExitStack`, and httpx error translation (src/llm_controls/llm_client.py:108-123) are foreign I/O. Their outcomes are scripted per request.
- `chat` reads the reply at `result['choices'][0]['message']['content']` (src/llm_controls/llm_client.py:46-49). That is part of the scripted LM reply, and a missing key there is one of its errors. A reply whose content is not a string is not modelled.
- `asyncio.Lock` and concurrent calls to `cleanup` are left out: clean-up is a sequential state transition.
- The sleep duration and wall-clock time are left out. Only sleeps are counted.
- `json.loads` is a parameter. The span given to it in `process_llm_response` starts with `{`, so a successful parse there is taken to be an object. In `chat_stream` it returns a value or the offset of its failure.
- `str()` of a value, the `:.1f` percentage format, the prompt template and `str.format` are parameters.
- `input()` is a sequence of lines, interrupts and end-of-input events. An interrupt during an LM or tool call is not modelled. Logging is left out.
- Tool, resource and prompt records are reduced to name, description and input schema. The conversion `entity_type(**entity.dict())` is not modelled.
- src/server/mcp_simple_resource.py and src/main.py (server registration and wiring) are not part of this model.
- `Text.Lower`: folds only ASCII letters, where Python's `lower` covers all of Unicode. This is enough for comparing against quit/exit/stop, up to non-ASCII characters that lower-case to ASCII letters.
- `Text.Strip`: the whitespace set is Python's below U+0100. The Unicode spaces above it are left out.
- `ChatLoop.ProgressText`: the TypeError message does not name the operand types. A JSON float is an exact real: its rounding, and the `NaN`, `Infinity` and overflowing literals (such as `1e400`) that `json.loads` turns into non-finite floats, are not modelled. A float quotient that overflows is `inf` in Python and raises nothing; the model passes the exact quotient to the percentage format.
- `ChatLoop.SessionReleasesClients`: on a normal exit it states that each client was cleaned up at least once and holds nothing. It does not state that the clean-up count rose by one from its starting value.
- The end-of-input message "EOF when reading a line" is the one `input()` gives when reading from a non-terminal.

## Findings

| source | as written | input that shows it | evidently intended | confidence | as-written member | corrected member |
|---|---|---|---|---|---|---|
| src/llm_controls/chat_session.py:243 | `input()` at end of input raises EOFError. The generic `except Exception` at line 303 catches it, appends "Error occurred: ..." and loops. Every later `input()` raises again, so the loop never ends and the history grows without bound. | standard input redirected from a file or a pipe that has been read to its end. On a terminal, Ctrl-D makes one `input()` raise with an empty message; each Ctrl-D then adds one "Error occurred: " turn and the next `input()` waits again, so Ctrl-D cannot end the session | end of input ends the session like the KeyboardInterrupt branch, and the `finally` clean-up runs | medium, not executed | `ChatLoop.StepAsWritten` (`ChatLoop.EndOfInputNeverEnds`, `ChatLoop.EndOfInputNeverEndsSession`) | `ChatLoop.Step` (`ChatLoop.EndOfInputEnds`, `ChatLoop.EndOfInputEndsSession`) |
