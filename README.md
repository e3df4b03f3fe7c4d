# MCP Workbench: verified model of its JSON-RPC core

This project models the checkable core of an MCP (Model Context Protocol)
test workbench in Dafny. It covers these parts:

- the two mock MCP servers. The Flask one handles `prompts`, `resources`, `tools` and `completion` requests and keeps a per-tool rate counter and admin flags. The FastAPI one adds cursor pagination and argument type checks for prompts;
- the MCP client's `send`, which numbers requests, builds the JSON-RPC 2.0 envelope and classifies the reply;
- the pydantic result schema for `prompts/list` and `prompts/get`, written as parsers from decoded JSON with encoders and round-trip lemmas;
- the compliance reporting of the test suite: one record per marked test, the summary counts, the MUST-failure exit status and the feature grouping;
- the registry of MCP requirements and its invariants;
- the version manager, which checks a specification version and loads its requirement files.

Decoded JSON is the `Json` datatype in `json_data.dfy` (`Null | Bool | Num(int) | Str | Arr | Obj`). The Python operations the code applies to such values are written out there:

- truthiness;
- `dict.get`;
- the `in` operator, which covers dicts, lists and substrings, and raises TypeError on other values;
- `next(...)` over a generator;
- f-string rendering.

A handler that would raise an uncaught Python exception ends in the `Raised` outcome. The web framework turns that outcome into an HTTP 500 page (`ErrorPage(500)`). `str.replace` is `Text.Replace`, a single left-to-right pass.

Stateful code is imperative Dafny:

- the Flask `ServerState` (`FlaskServerState.ServerState`);
- the client's request counter (`Client.McpClient`);
- the pytest session's result list and exit status (`Compliance.ComplianceSession`);
- `VersionManager`. The entry point `main.py` carries its own copy of this class (lines 18-71), identical in behaviour, and the one model covers both.

Each method's postcondition ties its result and new state to a pure step function. The properties are proved as lemmas about those step functions.

Where the code and its accompanying specification disagree, the model follows the code:

- The Flask server answers `unknown://resource` with -32602, not -32002. Only a uri containing `nonexistent` gets -32002.
- The Flask capabilities method is `server/capabilities`, and the FastAPI one is `capabilities/get`.
- `resources/subscribe` returns `status` and `uri` only.
- The client accepts a reply that carries both `result` and `error`, and reports the error.
- The FastAPI server never checks `jsonrpc`.
- The outcome `"SKIPPED"` is never produced by the compliance hook: a skipped test is recorded as `"FAIL"`.
- Clock readings are `real` numbers, because `time.time()` is a float. An integer clock would round the 60-second window.

## Model

| member | source | states |
|---|---|---|
| Schema.ParseArgument | mcp/protocol/schema.py:7-12 | an argument is accepted exactly when it is an object with a string `name`, a string `description` and a `required` the lax boolean accepts; the parsed fields are those values |
| Schema.ParseArguments | mcp/protocol/schema.py:7-20 | a list of arguments is accepted exactly when every element is; the result keeps the length and each element is that element's parse |
| Schema.ParseLaxBool | mcp/protocol/schema.py:12 | `required` accepts a JSON boolean as itself and refuses null, lists and objects |
| Schema.ParsePrompt | mcp/protocol/schema.py:15-20 | a prompt is accepted exactly when it has a string `name` and `description` and its `arguments` are absent, null or a valid argument list; the parsed fields are those values, with no arguments exactly when absent or null |
| Schema.ParsePrompts | mcp/protocol/schema.py:15-20 | a list of prompts is accepted exactly when every element is a valid prompt; the result keeps the length and each element is that element's parse |
| Schema.ParsePromptsListResult | mcp/protocol/schema.py:23-27 | a listing is accepted exactly when `prompts` is a list of valid prompts and `nextCursor` is absent, null or a string; the parsed prompts and cursor are those values |
| Schema.ParseStrMap | mcp/protocol/schema.py:45-49 | a resource map is accepted exactly when every value is a string, with the same keys and values |
| Schema.ParseContent | mcp/protocol/schema.py:30-54 | content is accepted exactly when its `type` is "text" with a string `text`, "image" with string `data` and `mimeType`, or "resource" with a string-valued `resource` object; the variant is the one `type` names and carries those field values |
| Schema.ParseRole | mcp/protocol/schema.py:57-61 | a role is accepted exactly when it is "user" or "assistant", and it is the user role exactly for "user" |
| Schema.ParsePromptMessage | mcp/protocol/schema.py:57-61 | a message is accepted exactly when it is an object whose `role` and `content` are both present and valid; the parsed role and content are theirs |
| Schema.ParseMessages | mcp/protocol/schema.py:57-61 | a message list is accepted exactly when every message is; the result keeps the length and each element is that message's parse |
| Schema.ParsePromptsGetResult | mcp/protocol/schema.py:64-68 | a `prompts/get` result is accepted exactly when `description` is absent, null or a string and `messages` is a list of at least one valid message; the parsed description and messages are those values |
| Schema.ArgumentsRoundTrip | mcp/protocol/schema.py:7-12 | encoding a list of arguments and validating it gives the same list back |
| Schema.PromptRoundTrip | mcp/protocol/schema.py:15-20 | encoding a prompt (arguments omitted when absent) and validating it gives the prompt back |
| Schema.PromptsRoundTrip | mcp/protocol/schema.py:15-20 | encoding a list of prompts and validating it gives the list back |
| Schema.PromptsListRoundTrip | mcp/protocol/schema.py:23-27 | encoding a listing (cursor omitted when absent) and validating it gives the listing back |
| Schema.ContentRoundTrip | mcp/protocol/schema.py:30-54 | encoding any content variant and validating it gives it back |
| Schema.MessagesRoundTrip | mcp/protocol/schema.py:57-61 | encoding a list of messages and validating it gives the list back |
| Schema.PromptsGetRoundTrip | mcp/protocol/schema.py:64-68 | a result with at least one message survives encoding and validation |
| Schema.EmptyMessagesRejected | mcp/protocol/schema.py:68 | a `prompts/get` result with an empty message list is refused |
| Schema.ResourceWithoutUriAccepted | mcp/protocol/schema.py:45-49 | resource content without `uri` is accepted: the uri rule is only a comment |
| Schema.LaxBoolAcceptsWords | mcp/protocol/schema.py:12 | the lax boolean accepts the words "Yes" and "off" and refuses the number 2 |
| FlaskMockServer.FindPrompt | mcp/mock_server.py:239-240 | the prompt found is a listed prompt with that name; none is found exactly when no listed name matches |
| FlaskMockServer.FindResource | mcp/mock_server.py:326-327 | the resource found is listed with that uri; none is found exactly when no listed uri matches |
| FlaskMockServer.FindTool | mcp/mock_server.py:375-376 | the tool found is listed with that name; none is found exactly when no listed name matches |
| FlaskMockServer.ErrorResponse | mcp/mock_server.py:186-191 | an error envelope with `jsonrpc`, the id and an error with the code and message, and `data` present exactly when it is truthy |
| FlaskMockServer.SuccessResponse | mcp/mock_server.py:194-196 | a success envelope with exactly `jsonrpc`, the id and the result |
| FlaskMockServer.ValidateRequest | mcp/mock_server.py:199-224 | no error exactly when `jsonrpc` is "2.0" and `method` is a string; otherwise -32600 for the request id, with the message of the first failed check in order |
| FlaskMockServer.FirstAbsent | mcp/mock_server.py:249-254 | over an object, all required names are present exactly when the check passes; the name reported missing is the first absent one in order; a non-container raises |
| FlaskMockServer.RequiredNames | mcp/mock_server.py:250-251 | the names checked are exactly those of the arguments marked required |
| FlaskMockServer.PromptsGetPayload | mcp/mock_server.py:256-310 | every payload has at least one message; the echo and test prompts raise on non-object arguments |
| FlaskMockServer.PromptsGet | mcp/mock_server.py:227-310 | "cause_internal_error" gives -32603; an unknown name or a missing required argument gives -32602; a known prompt with all required arguments present succeeds; every success validates as a `prompts/get` result |
| FlaskMockServer.ResourcesRead | mcp/mock_server.py:313-344 | a falsy uri gives -32602; a uri containing "nonexistent" gives -32002 before the lookup; an unlisted uri gives -32602; success is one content item with the uri and the listed mimeType |
| FlaskMockServer.ResourcesSubscribe | mcp/mock_server.py:347-366 | a falsy or unlisted uri gives -32602; a listed one gives `status` "subscribed" with the uri |
| FlaskMockServer.ToolsCallGate | mcp/mock_server.py:369-397 | an unknown tool, a missing required argument or `admin_only_tool` is refused with -32602, a missing argument with a message naming the first absent one; otherwise the call is admitted with its name and arguments |
| FlaskMockServer.EscapesAreInert | mcp/mock_server.py:447-452 | no replacement text of the `echo` tool can form part of a dangerous pattern |
| FlaskMockServer.RemovedInert | mcp/mock_server.py:451-452 | "data-removed=" cannot form part of an `on...=` attribute pattern |
| FlaskMockServer.EchoOutputSafe | mcp/mock_server.py:444-454 | the `echo` output never contains `<script>`, `</script>`, `onerror=` or `onclick=` |
| FlaskMockServer.EchoKeepsPlainText | mcp/mock_server.py:447-452 | text without any of the four patterns is echoed unchanged |
| FlaskMockServer.EchoIdempotent | mcp/mock_server.py:447-452 | sanitising an already sanitised text changes nothing |
| FlaskMockServer.EchoToolKeepsPlainText | mcp/mock_server.py:432 | text without script tags passes `echo_tool` unchanged |
| FlaskMockServer.EchoToolReformsScript | mcp/mock_server.py:429-441 | `echo_tool` turns "<scr<script>ipt>" into "<script>", so its output can contain a script tag |
| FlaskMockServer.DeleteInnerTag | mcp/mock_server.py:432 | deleting `<script>` from "<scr<script>ipt>" leaves "<script>" |
| FlaskMockServer.DeleteTagAtFour | mcp/mock_server.py:432 | a single deletion pass removes a tag found at position 4 and no other |
| FlaskMockServer.ScriptTagInEcho | mcp/mock_server.py:437 | an echo of the tag contains the tag |
| FlaskMockServer.ToolResult | mcp/mock_server.py:413-465 | never an error envelope, and the id is echoed; it raises exactly when `error_tool` finds a non-string `mode` or `echo_tool`/`echo` a non-string `text`, or one of these three tools gets an `arguments` that is not an object; `error_tool` with a mode in the failure list answers one text item flagged `isError`; any other tool, and `error_tool` with another mode, answers a non-empty list of text items not flagged as an error; `echo_tool` answers "Echo: " plus the text with script tags deleted; `echo` answers the sanitised text as `output` |
| FlaskMockServer.CompletionComplete | mcp/mock_server.py:468-532 | non-object params raise; an unknown prompt or an undeclared argument gives -32602; `ref/prompt` succeeds exactly when both are known; `ref/resource` always succeeds; another ref type gives -32602; a success lists completions of `argument.value` |
| FlaskMockServer.Route | mcp/mock_server.py:536-608 | an unparsable body gets the plain-text 400; a non-object raises; an invalid envelope gets its -32600; `tools/call` is handed on with id defaulting to 1 and params to {}; `prompts/get`, `resources/read`, `resources/subscribe` and `completion/complete` get their handler's answer; the capabilities and the four listings are returned as stored; an unknown method gets -32601 |
| FlaskServerState.Tick | mcp/mock_server.py:399-407 | a new window opens after more than 60 s; the tool's count goes up by exactly one and no other count changes |
| FlaskServerState.ToolsCallStep | mcp/mock_server.py:369-465 | a refused call leaves the state unchanged; an admitted call ticks its counter and gets -32005 exactly when the new count exceeds 10; within the limit it answers with `ToolResult` for the admitted name and arguments |
| FlaskServerState.RpcStep | mcp/mock_server.py:536-608 | a truthy invalid-JSON flag gives the plain-text 400 and clears the flag; otherwise a `tools/call` gives the reply and state of `ToolsCallStep` and every other request the routed reply with the state unchanged; other requests leave the flags unchanged; only `tools/call` changes the counters |
| FlaskServerState.ConfigureStep | mcp/mock_server.py:612-634 | an object sets exactly the flags it names and the reply reports all three; counters never change |
| FlaskServerState.EleventhCallRefused | mcp/mock_server.py:402-411 | within a window, an admitted call to a tool that already has 10 calls is refused with -32005 |
| FlaskServerState.NewWindowAdmits | mcp/mock_server.py:402-411 | after more than 60 s an admitted call starts a fresh table with count 1 and is not refused |
| FlaskServerState.ForceInvalidJsonIsOneShot | mcp/mock_server.py:539-542 | once the flag is set, the next request gets the plain-text 400 and leaves the armed state with only the flag cleared; the request after it gets the reply routing gives it |
| FlaskServerState.RequestsKeepFlags | mcp/mock_server.py:536-608 | no sequence of JSON-RPC requests changes `simulate_errors` or `slow_response`, and none sets the invalid-JSON flag |
| FlaskServerState.ServerState.constructor | mcp/mock_server.py:9-179 | a fresh server has an empty counter table and all flags false |
| FlaskServerState.ServerState.TickFields | mcp/mock_server.py:402-407 | the counter fields are updated in place as `Tick` says |
| FlaskServerState.ServerState.HandleToolsCall | mcp/mock_server.py:369-465 | the answer and the new fields are those of `ToolsCallStep` |
| FlaskServerState.ServerState.HandleRpc | mcp/mock_server.py:536-608 | the reply and the new fields are those of `RpcStep` |
| FlaskServerState.ServerState.Configure | mcp/mock_server.py:612-634 | the reply and the new flags are those of `ConfigureStep` |
| FastApiMockServer.Response | mock_server/server.py:124-126 | a success envelope for the id carrying the result |
| FastApiMockServer.ErrorEnvelope | mock_server/server.py:129-131 | an error envelope for the id with the code and message |
| FastApiMockServer.ListPrompts | mock_server/server.py:166-181 | cursor "page2" gives page 2; another truthy cursor gives -32602; otherwise a truthy `use_pagination` gives page 1 and anything else the whole listing; non-object params raise |
| FastApiMockServer.CheckArguments | mock_server/server.py:205-223 | over an object, accepted exactly when every required argument is present and every present declared argument is a string; otherwise refused naming the first failing argument, a missing one with "Missing required argument" and a wrong type with "Invalid type for argument" |
| FastApiMockServer.Definition | mock_server/server.py:195-197 | the definition found is a listed prompt with that name |
| FastApiMockServer.DefinitionFound | mock_server/server.py:65-117 | every name with content has a listed definition |
| FastApiMockServer.GetPrompt | mock_server/server.py:184-226 | a missing or falsy name, a number or boolean name, or an unknown string gives -32602 "Invalid prompt name"; a list or object name raises; -32603 only when no definition exists; with object arguments, success exactly when the argument checks pass; a refusal is -32602 with the argument check's message; a success returns the prompt's content unchanged |
| FastApiMockServer.HandleJsonRpc | mock_server/server.py:134-231 | unparsable gives -32700 and a non-object -32600, both with id null; a falsy or non-string method gives -32600 with the id; `capabilities/get` returns the capability map; `prompts/list` and `prompts/get` get their handler's answer; an unserved method gives -32601 naming it; every answer is a 200 envelope |
| FastApiMockServer.ListingMatchesContent | mock_server/server.py:32-117 | the listed prompts have distinct names; every listed name has content and every name with content is listed |
| FastApiMockServer.NoInternalError | mock_server/server.py:195-202 | the -32603 "prompt not found" answer is never sent |
| FastApiMockServer.FirstPage | mock_server/server.py:120 | pagination gives page 1, which validates and carries cursor "page2" |
| FastApiMockServer.SecondPage | mock_server/server.py:121 | cursor "page2" gives page 2, which validates and has no cursor |
| FastApiMockServer.PaginationCoversListing | mock_server/server.py:120-121 | page 1 followed by page 2 is the whole listing, and the pages are disjoint |
| FastApiMockServer.ContentValidates | mock_server/server.py:65-117 | every successful `prompts/get` answer validates as a `prompts/get` result equal to a prompt's content |
| Client.ErrorText | mcp/client.py:17-23 | the error text is "JSON-RPC error {code}: {message}" |
| Client.BuildRequest | mcp/client.py:53-55 | the request has `jsonrpc` "2.0", the method and the id, and `params` exactly when the params are truthy |
| Client.Classify | mcp/client.py:63-70 | an `error` member wins; an error without code or message is an invalid-format failure; a reply with neither member is a missing-result failure; otherwise the result is returned unchanged |
| Client.SendOutcome | mcp/client.py:72-80 | a transport failure or an undecodable body is a plain `MCPError`, never a JSON-RPC error |
| Client.McpClient.constructor | mcp/client.py:29-36 | a new client keeps the server URL and starts its request id at 0 |
| Client.McpClient.Send | mcp/client.py:38-80 | the request id goes up by exactly one whatever happens; the request carries the new id; the outcome classifies what the transport delivered |
| Client.ErrorWinsOverResult | mcp/client.py:63-65 | a reply with both `result` and `error` is reported as the error |
| Client.ErrorOnlyFromErrorMember | mcp/client.py:63-80 | a JSON-RPC error comes exactly from a delivered object with a complete `error` member, and a result exactly from one with `result` and no `error` |
| Interop.ClientRequestsAreValid | mcp/client.py:53-55 | every request the client builds passes the Flask server's envelope validation |
| Interop.ClientReadsErrors | mcp/client.py:63-65 | the error envelope of either server reaches the caller as a JSON-RPC error with its code and message |
| Interop.ClientReadsResults | mcp/client.py:67-70 | the success envelope of either server reaches the caller as its result |
| Requirements.RegistryWellFormed | tests/_meta.py:18-167 | every feature lists at least one requirement, each filed under its own feature, with level MUST or SHOULD and an id |
| Requirements.IdDefaultsToNone | tests/_meta.py:7-14 | a requirement declared without an id has none |
| Requirements.IdsUnique | tests/_meta.py:18-167 | no two requirements share an id |
| Compliance.Describe | conftest.py:56-60 | the description is that of the first requirement with the id, and absent exactly when no requirement has it |
| Compliance.RecordsFor | conftest.py:32-62 | at most one record; one exactly for a call phase or a failed setup of a marked test; PASS exactly without an exception; marker defaults "unknown"; a description only from the registry |
| Compliance.LookUpDescription | conftest.py:55-60 | the loop finds the description `Describe` gives under a registered feature, and none otherwise |
| Compliance.Summarize | conftest.py:73-90 | the total is the record count and each counter is the number of records with its outcome (and, for failures, its level); passed + failed + skipped <= total; MUST + SHOULD failures <= failed; MUST failures exist exactly when a MUST record failed |
| Compliance.SummarizeAppend | conftest.py:73-90 | one more record raises the total by one, its outcome's counter by one and, for a failure, its level's counter by one, and leaves the other counts unchanged |
| Compliance.SummaryOfRecorded | conftest.py:35 | over records the hook makes, passed + failed == total and skipped == 0 |
| Compliance.SkipIsRecordedAsFailure | conftest.py:34-35 | a test skipped in setup is recorded, as a failure |
| Compliance.OneRecordPerTest | conftest.py:34-62 | the phases of one test add exactly one record if it is marked and none otherwise |
| Compliance.GroupedIsRestriction | conftest.py:102-105 | grouping by distinct features lists exactly the records under those features |
| Compliance.GroupingShowsEveryRecord | conftest.py:102-105 | grouping by the distinct features of the records shows every record exactly once |
| Compliance.OfFeatureKeepsOrder | conftest.py:105 | a feature's group keeps its records in their original relative order |
| Compliance.ExitStatusReflectsMustFailures | conftest.py:129-131 | the session fails exactly when some record is a failed MUST requirement |
| Compliance.ComplianceSession.constructor | conftest.py:25-26 | a session starts with no results and the given exit status |
| Compliance.ComplianceSession.MakeReport | conftest.py:32-62 | the phase's records are appended, every record stays a pass or a failure, and the exit status is untouched |
| Compliance.ComplianceSession.Finish | conftest.py:65-131 | the report is the summary and the unchanged results; the exit status becomes 1 when a MUST requirement failed and is kept otherwise |
| Versions.SupportedVersions | mcp/version_manager.py:29-35 | the supported versions are the subdirectory names, and none when the specs directory is missing |
| Versions.FileOfCategory | mcp/version_manager.py:79 | deleting the suffix from a file named after a category gives the category |
| Versions.LoadedByCategory | mcp/version_manager.py:75-84 | reading files named after distinct categories gives exactly the categories whose file exists, mapped to their text |
| Versions.LoadedCategories | mcp/version_manager.py:68-84 | loading gives keys among prompts, resources, tools and utilities, each present exactly when its file exists and mapped to its text |
| Versions.VersionManager.constructor | mcp/version_manager.py:18-27 | a new manager has the supported versions of its directory, no current version and no requirements |
| Versions.VersionManager.ValidateVersion | mcp/version_manager.py:37-50 | a version is valid exactly when it names a subdirectory of an existing specs directory |
| Versions.VersionManager.LoadRequirements | mcp/version_manager.py:52-87 | an unsupported version gives the ValueError and changes nothing; otherwise the version becomes current and the loaded categories become the requirements |
| Versions.RunMain | main.py:74-100 | exit status 1 exactly for an unsupported version, before anything is loaded; otherwise the version's requirements are loaded |

## Left out

- HTTP and framework plumbing: routes, `jsonify`, CORS and uvicorn are not modelled. Requests arrive already decoded as `Body`, where an unparsable body is a value of its own. The framework's 500 and 400 pages are the `ErrorPage` reply.
- The `slow_response` sleep is left out, and so is the `simulate_errors` flag's effect. No handler reads `simulate_errors`, so the flag is only stored and reported.
- Logging is left out, and so is the report's timestamp, the writing of `reports/summary.json` and the console printing.
- The feature grouping is modelled without its sort. `Compliance.Grouped` is proved for any order of distinct features, which includes Python's sorted order.
- JSON numbers are integers. Floats and their f-string rendering are not modelled.
- `JsonData.Show`: an f-string of a list or dict renders a fixed placeholder instead of Python's repr. Every use of `Show` is affected when the value is a list or dict:
  - the Flask `echo_prompt` and `test_prompt` texts;
  - the generic tool reply;
  - the completion prefix, for both `ref/prompt` and `ref/resource`;
  - the three completion error messages (unknown prompt, unknown argument, unsupported ref type);
  - the client's `JSONRPCError` text (`Client.ErrorText`).
- `ToolResult`: the error tool lower-cases its mode with ASCII case mapping only. Python's full Unicode `lower()` is not modelled.
- `Schema.ParseLaxBool`: pydantic's lax boolean parsing is modelled for JSON booleans and the usual words and digits. Every other input is refused.
- `Client.SendOutcome`: an undecodable reply is modelled as "Invalid JSON response". With `requests` 2.27 or later, the library's decode error is also a `RequestException`, so the message would begin "Request failed". Both are plain `MCPError`.
- Compliance markers take string keyword values only. A marker keyword of another type is not modelled.
- Python's behaviour for an unhashable feature name is not modelled.
- The entry point is modelled up to its validate-then-exit branch (`Versions.RunMain`). Argument parsing and test discovery are not. An I/O error while reading a requirement file is not modelled either: the specs directory is given data.
- The `VersionManager` getters are plain reads of the two fields (`CurrentVersion`, `CurrentRequirements`). What they return is stated by the constructor and `LoadRequirements`.
- The threaded server launcher, the command-line wrappers, `mcp/protocol.py`, the healthcheck route and the test scripts are not part of this model.
