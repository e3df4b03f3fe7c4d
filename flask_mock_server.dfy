/**
 * The Flask mock server's request handling: its fixed listings, the two
 * envelope builders, envelope validation, and one handler per method. Every
 * handler takes an already-decoded request id and `params` value; where the
 * Python code would raise on a value of the wrong kind (calling `.get` on a
 * list, `in` on a number) the handler yields `Raised`.
 * The server's mutable state and the dispatcher are in FlaskServerState.
 */
module FlaskMockServer {
  import opened JsonData
  import opened JsonRpc
  import Text
  import Schema

  // ---------------------------------------------------------------- fixed listings

  datatype Resource = Resource(uri: string, name: string, mimeType: string)

  datatype Template = Template(uriTemplate: string, name: string, mimeType: string)

  /**
   * A listed tool. Every tool's input schema declares one string property
   * (`param`, described by `paramDescription`) and the property names it requires.
   */
  datatype Tool = Tool(name: string, description: string, param: string, paramDescription: string, required: seq<string>)

  const Prompts: seq<Schema.Prompt> := [
    Schema.Prompt("test_prompt", "A test prompt", Some([Schema.Argument("arg1", "Test argument", true)])),
    Schema.Prompt("simple_prompt", "A prompt with no arguments", None),
    Schema.Prompt("echo_prompt", "Repeats user input", Some([Schema.Argument("text", "input text", true)]))
  ]

  const Resources: seq<Resource> := [
    Resource("example://resource1", "Example Resource 1", "text/plain"),
    Resource("example://resource2", "Example Resource 2", "application/json")
  ]

  const Templates: seq<Template> := [
    Template("template://example/{name}", "Example Template", "text/plain"),
    Template("template://config/{filename}", "Configuration Template", "application/json")
  ]

  const Tools: seq<Tool> := [
    Tool("example_tool", "An example tool for testing", "query", "A search query", ["query"]),
    Tool("calculator", "Performs basic calculations", "expression", "Math expression to evaluate", ["expression"]),
    Tool("error_tool", "A tool that produces controlled errors", "mode", "Error mode to trigger", ["mode"]),
    Tool("admin_only_tool", "A tool that requires admin privileges", "command", "Admin command to execute", ["command"]),
    Tool("echo_tool", "A tool that echoes back user input", "text", "Text to echo back", ["text"]),
    Tool("echo", "A tool that echoes the input text", "text", "Text to echo back", ["text"])
  ]

  function ResourceJson(r: Resource): Json
  {
    Obj(map["uri" := Str(r.uri), "name" := Str(r.name), "mimeType" := Str(r.mimeType)])
  }

  function TemplateJson(t: Template): Json
  {
    Obj(map["uriTemplate" := Str(t.uriTemplate), "name" := Str(t.name), "mimeType" := Str(t.mimeType)])
  }

  function ToolJson(t: Tool): Json
  {
    var props := map[t.param := Obj(map["type" := Str("string"), "description" := Str(t.paramDescription)])];
    var schema := Obj(map["type" := Str("object"), "properties" := Obj(props),
                          "required" := Arr(seq(|t.required|, i requires 0 <= i < |t.required| => Str(t.required[i])))]);
    Obj(map["name" := Str(t.name), "description" := Str(t.description), "inputSchema" := schema])
  }

  /** The result of `prompts/list`. */
  function PromptsListing(): Json
  {
    Schema.PromptsListJson(Schema.PromptsListResult(Prompts, None))
  }

  function ResourcesListing(): Json
  {
    Obj(map["resources" := Arr(seq(|Resources|, i requires 0 <= i < |Resources| => ResourceJson(Resources[i])))])
  }

  function TemplatesListing(): Json
  {
    Obj(map["resourceTemplates" := Arr(seq(|Templates|, i requires 0 <= i < |Templates| => TemplateJson(Templates[i])))])
  }

  function ToolsListing(): Json
  {
    Obj(map["tools" := Arr(seq(|Tools|, i requires 0 <= i < |Tools| => ToolJson(Tools[i])))])
  }

  function Capabilities(): Json
  {
    Obj(map[
      "prompts" := Obj(map["list" := Bool(true), "get" := Bool(true), "listChanged" := Bool(true)]),
      "resources" := Obj(map["list" := Bool(true), "read" := Bool(true),
                             "templates" := Obj(map["list" := Bool(true)]),
                             "listChanged" := Bool(true), "subscribe" := Bool(true)]),
      "tools" := Obj(map["list" := Bool(true), "call" := Bool(true), "listChanged" := Bool(true)]),
      "completion" := Obj(map["complete" := Bool(true)])
    ])
  }

  /** The listed prompt whose name equals `name`, the first one if several did. */
  function FindPrompt(name: Json): (r: Option<Schema.Prompt>)
    ensures r.Some? ==> r.value in Prompts && name == Str(r.value.name)
    ensures r.None? <==> forall i :: 0 <= i < |Prompts| ==> Str(Prompts[i].name) != name
  {
    First(Prompts, (p: Schema.Prompt) => Str(p.name) == name)
  }

  function FindResource(uri: Json): (r: Option<Resource>)
    ensures r.Some? ==> r.value in Resources && uri == Str(r.value.uri)
    ensures r.None? <==> forall i :: 0 <= i < |Resources| ==> Str(Resources[i].uri) != uri
  {
    First(Resources, (res: Resource) => Str(res.uri) == uri)
  }

  function FindTool(name: Json): (r: Option<Tool>)
    ensures r.Some? ==> r.value in Tools && name == Str(r.value.name)
    ensures r.None? <==> forall i :: 0 <= i < |Tools| ==> Str(Tools[i].name) != name
  {
    First(Tools, (t: Tool) => Str(t.name) == name)
  }

  // ---------------------------------------------------------------- envelopes

  /** `create_error_response`: `error.data` is attached only when `data` is truthy. */
  function ErrorResponse(id: Json, code: int, message: string, data: Json := Null): (r: Json)
    ensures IsResponse(r) && "error" in r.fields && r.fields.Keys == {"jsonrpc", "id", "error"}
    ensures IdOf(r) == id && ErrorCode(r) == Some(code) && MessageOf(r) == message
    ensures "data" in r.fields["error"].fields <==> Truthy(data)
    ensures Truthy(data) ==> r.fields["error"].fields["data"] == data
  {
    var error := map["code" := Num(code), "message" := Str(message)];
    Obj(map["jsonrpc" := Str("2.0"), "id" := id,
            "error" := Obj(if Truthy(data) then error["data" := data] else error)])
  }

  /** `create_success_response`. */
  function SuccessResponse(id: Json, result: Json): (r: Json)
    ensures IsSuccess(r) && r.fields.Keys == {"jsonrpc", "id", "result"}
    ensures IdOf(r) == id && ResultOf(r) == result && ErrorCode(r).None?
  {
    Obj(map["jsonrpc" := Str("2.0"), "id" := id, "result" := result])
  }

  function Error(id: Json, code: int, message: string): Outcome
  {
    Answer(ErrorResponse(id, code, message))
  }

  function Success(id: Json, result: Json): Outcome
  {
    Answer(SuccessResponse(id, result))
  }

  /**
   * `validate_jsonrpc_request`: no error exactly when `jsonrpc` is present and
   * equal to "2.0" and `method` is present and a string; otherwise a -32600
   * envelope for the request's `id` (null when absent) whose message names
   * the first check that failed, in the order presence of `jsonrpc`, its value,
   * presence of `method`, its type.
   */
  function ValidateRequest(req: map<string, Json>): (r: Option<Json>)
    ensures r.None? <==> "jsonrpc" in req && req["jsonrpc"] == Str("2.0") && "method" in req && req["method"].Str?
    ensures r.Some? ==> IsResponse(r.value) && ErrorCode(r.value) == Some(-32600) && IdOf(r.value) == Get(req, "id", Null)
    ensures "jsonrpc" !in req ==> r.Some? && MessageOf(r.value) == "Invalid Request: jsonrpc field is required"
    ensures "jsonrpc" in req && req["jsonrpc"] != Str("2.0") ==>
              r.Some? && MessageOf(r.value) == "Invalid Request: jsonrpc version must be exactly '2.0'"
    ensures "jsonrpc" in req && req["jsonrpc"] == Str("2.0") && "method" !in req ==>
              r.Some? && MessageOf(r.value) == "Invalid Request: method is required"
    ensures "jsonrpc" in req && req["jsonrpc"] == Str("2.0") && "method" in req && !req["method"].Str? ==>
              r.Some? && MessageOf(r.value) == "Invalid Request: method must be a string"
  {
    var id := Get(req, "id", Null);
    if "jsonrpc" !in req then Some(ErrorResponse(id, -32600, "Invalid Request: jsonrpc field is required"))
    else if req["jsonrpc"] != Str("2.0") then
      Some(ErrorResponse(id, -32600, "Invalid Request: jsonrpc version must be exactly '2.0'"))
    else if "method" !in req then Some(ErrorResponse(id, -32600, "Invalid Request: method is required"))
    else if !req["method"].Str? then Some(ErrorResponse(id, -32600, "Invalid Request: method must be a string"))
    else None
  }

  // ---------------------------------------------------------------- required arguments

  /** How a check for required argument names ends. */
  datatype ArgCheck = AllPresent | MissingArg(name: string) | CheckRaised

  /**
   * `for name in names: if name not in arguments: ...`: the first name the
   * `in` test reports absent, or `CheckRaised` when `arguments` is of a kind
   * `in` refuses. Only presence is tested, never the value.
   */
  function FirstAbsent(names: seq<string>, arguments: Json): (r: ArgCheck)
    ensures r == CheckRaised <==> names != [] && PyIn(names[0], arguments).None?
    ensures arguments.Obj? ==> (r == AllPresent <==> forall i :: 0 <= i < |names| ==> names[i] in arguments.fields)
    ensures r.MissingArg? ==> r.name in names && PyIn(r.name, arguments) == Some(false)
    ensures forall k :: 0 <= k < |names| && PyIn(names[k], arguments) == Some(false) &&
                        (forall i :: 0 <= i < k ==> PyIn(names[i], arguments) == Some(true)) ==>
              r == MissingArg(names[k])
    decreases |names|
  {
    if names == [] then AllPresent
    else match PyIn(names[0], arguments)
      case None => CheckRaised
      case Some(present) => if !present then MissingArg(names[0]) else FirstAbsent(names[1..], arguments)
  }

  /** The names of the declared arguments marked required, in declaration order. */
  function RequiredNames(args: seq<Schema.Argument>): (r: seq<string>)
    ensures forall n :: n in r <==> exists i :: 0 <= i < |args| && args[i].required && args[i].name == n
    decreases |args|
  {
    if args == [] then []
    else (if args[0].required then [args[0].name] else []) + RequiredNames(args[1..])
  }

  // ---------------------------------------------------------------- prompts/get

  function TextMessage(role: Schema.Role, text: string): Schema.PromptMessage
  {
    Schema.PromptMessage(role, Schema.TextContent(text))
  }

  /** The success payload of `prompts/get` for a listed prompt whose required arguments are present. */
  function PromptsGetPayload(prompt: Schema.Prompt, arguments: Json): (r: Option<Schema.PromptsGetResult>)
    ensures (prompt.name == "echo_prompt" || prompt.name == "test_prompt") && !arguments.Obj? ==> r.None?
    ensures r.Some? ==> |r.value.messages| >= 1
  {
    if prompt.name == "echo_prompt" then
      if !arguments.Obj? then None
      else
        var text := Get(arguments.fields, "text", Str(""));
        Some(Schema.PromptsGetResult(Some("Echo prompt result"),
                                     [TextMessage(Schema.User, "You said: " + Show(text))]))
    else if prompt.name == "test_prompt" then
      if !arguments.Obj? then None
      else
        var arg1 := Get(arguments.fields, "arg1", Str(""));
        Some(Schema.PromptsGetResult(Some(prompt.description), [
          TextMessage(Schema.User, "User message with argument: " + Show(arg1)),
          TextMessage(Schema.Assistant, "Assistant response")]))
    else
      Some(Schema.PromptsGetResult(Some(prompt.description), [
        TextMessage(Schema.User, "Default user message"),
        Schema.PromptMessage(Schema.Assistant, Schema.ResourceContent(map[
          "uri" := "example://resource", "mimeType" := "text/plain", "text" := "Example resource content"]))]))
  }

  /**
   * `handle_prompts_get`: -32603 for the name "cause_internal_error", -32602
   * for a name that is not listed or a required argument that is absent
   * (values are never type-checked), otherwise a payload that validates as a
   * `prompts/get` result.
   */
  function PromptsGet(id: Json, params: Json): (r: Outcome)
    ensures !params.Obj? ==> r == Raised
    ensures params.Obj? && Get(params.fields, "name", Null) == Str("cause_internal_error") ==>
              OutcomeCode(r) == Some(-32603)
    ensures params.Obj? && Get(params.fields, "name", Null) != Str("cause_internal_error") &&
            FindPrompt(Get(params.fields, "name", Null)).None? ==>
              OutcomeCode(r) == Some(-32602)
    ensures params.Obj? && FindPrompt(Get(params.fields, "name", Null)).Some? &&
            FirstAbsent(PromptRequired(FindPrompt(Get(params.fields, "name", Null)).value),
                        Get(params.fields, "arguments", Obj(map[]))).MissingArg? ==>
              OutcomeCode(r) == Some(-32602)
    ensures params.Obj? && FindPrompt(Get(params.fields, "name", Null)).Some? &&
            Get(params.fields, "arguments", Obj(map[])).Obj? &&
            (forall n :: n in PromptRequired(FindPrompt(Get(params.fields, "name", Null)).value) ==>
                         n in Get(params.fields, "arguments", Obj(map[])).fields) ==>
              r.Answer? && IsSuccess(r.envelope)
    ensures r.Answer? ==> IsResponse(r.envelope) && IdOf(r.envelope) == id
    ensures r.Answer? && IsSuccess(r.envelope) ==> Schema.ParsePromptsGetResult(ResultOf(r.envelope)).Some?
  {
    if !params.Obj? then Raised
    else
      var name := Get(params.fields, "name", Null);
      var arguments := Get(params.fields, "arguments", Obj(map[]));
      if name == Str("cause_internal_error") then Error(id, -32603, "Internal error: prompt processor failed")
      else match FindPrompt(name)
        case None => Error(id, -32602, "Invalid params: unknown prompt name")
        case Some(prompt) =>
          match FirstAbsent(PromptRequired(prompt), arguments)
          case CheckRaised => Raised
          case MissingArg(_) => Error(id, -32602, "Invalid params: missing required argument")
          case AllPresent =>
            match PromptsGetPayload(prompt, arguments)
            case None => Raised
            case Some(payload) =>
              Schema.PromptsGetRoundTrip(payload);
              Success(id, Schema.PromptsGetJson(payload))
  }

  /** The required argument names of a prompt; a prompt without `arguments` has none. */
  function PromptRequired(prompt: Schema.Prompt): seq<string>
  {
    if prompt.arguments.Some? then RequiredNames(prompt.arguments.value) else []
  }

  // ---------------------------------------------------------------- resources

  /**
   * `handle_resources_read`: -32602 for a falsy `uri`; -32002 for a uri
   * containing "nonexistent", checked before the listing; -32602 for a uri
   * that is not listed; otherwise exactly one content item carrying the
   * requested uri and the listed mime type.
   */
  function ResourcesRead(id: Json, params: Json): (r: Outcome)
    ensures !params.Obj? ==> r == Raised
    ensures params.Obj? && !Truthy(Get(params.fields, "uri", Null)) ==> OutcomeCode(r) == Some(-32602)
    ensures params.Obj? && Truthy(Get(params.fields, "uri", Null)) &&
            PyIn("nonexistent", Get(params.fields, "uri", Null)) == Some(true) ==>
              OutcomeCode(r) == Some(-32002)
    ensures params.Obj? && Truthy(Get(params.fields, "uri", Null)) &&
            PyIn("nonexistent", Get(params.fields, "uri", Null)) == Some(false) &&
            FindResource(Get(params.fields, "uri", Null)).None? ==>
              OutcomeCode(r) == Some(-32602)
    ensures r.Answer? ==> IsResponse(r.envelope) && IdOf(r.envelope) == id
    ensures r.Answer? && IsSuccess(r.envelope) ==>
              exists res :: res in Resources && Get(params.fields, "uri", Null) == Str(res.uri) &&
                !Text.IsSubstring("nonexistent", res.uri) &&
                ResultOf(r.envelope) == Obj(map["contents" := Arr([Obj(map[
                  "uri" := Str(res.uri), "mimeType" := Str(res.mimeType), "text" := Str("Content of " + res.name)])])])
  {
    if !params.Obj? then Raised
    else
      var uri := Get(params.fields, "uri", Null);
      if !Truthy(uri) then Error(id, -32602, "Invalid params: missing uri parameter")
      else match PyIn("nonexistent", uri)
        case None => Raised
        case Some(missing) =>
          if missing then Error(id, -32002, "Resource not found")
          else match FindResource(uri)
            case None => Error(id, -32602, "Invalid params: unknown resource uri")
            case Some(res) =>
              Success(id, Obj(map["contents" := Arr([Obj(map[
                "uri" := uri, "mimeType" := Str(res.mimeType), "text" := Str("Content of " + res.name)])])]))
  }

  /**
   * `handle_resources_subscribe`: -32602 for a falsy `uri` or one that is not
   * listed, otherwise the status "subscribed" with the uri.
   */
  function ResourcesSubscribe(id: Json, params: Json): (r: Outcome)
    ensures !params.Obj? ==> r == Raised
    ensures params.Obj? ==> r.Answer? && IsResponse(r.envelope) && IdOf(r.envelope) == id
    ensures params.Obj? ==>
              (IsSuccess(r.envelope) <==> Truthy(Get(params.fields, "uri", Null)) && FindResource(Get(params.fields, "uri", Null)).Some?)
    ensures params.Obj? && !IsSuccess(r.envelope) ==> OutcomeCode(r) == Some(-32602)
    ensures params.Obj? && IsSuccess(r.envelope) ==>
              ResultOf(r.envelope) == Obj(map["status" := Str("subscribed"), "uri" := Get(params.fields, "uri", Null)])
  {
    if !params.Obj? then Raised
    else
      var uri := Get(params.fields, "uri", Null);
      if !Truthy(uri) then Error(id, -32602, "Invalid params: missing uri parameter")
      else match FindResource(uri)
        case None => Error(id, -32602, "Invalid params: unknown resource uri")
        case Some(_) => Success(id, Obj(map["status" := Str("subscribed"), "uri" := uri]))
  }

  // ---------------------------------------------------------------- tools/call

  /** Whether a `tools/call` request reaches the rate counter, and with which tool and arguments. */
  datatype Gate = Rejected(out: Outcome) | Admitted(name: string, arguments: Json)

  /**
   * The checks of `handle_tools_call` made before the rate counter: the tool
   * must be listed, every name its schema requires must be `in` the arguments,
   * and "admin_only_tool" is always refused.
   */
  function ToolsCallGate(id: Json, params: Json): (g: Gate)
    ensures !params.Obj? ==> g == Rejected(Raised)
    ensures params.Obj? && FindTool(Get(params.fields, "name", Null)).None? ==>
              g.Rejected? && OutcomeCode(g.out) == Some(-32602)
    ensures params.Obj? && Get(params.fields, "name", Null) == Str("admin_only_tool") ==>
              g.Rejected? && OutcomeCode(g.out) in {None, Some(-32602)}
    ensures g.Rejected? && g.out.Answer? ==> IsResponse(g.out.envelope) && OutcomeCode(g.out) == Some(-32602) && IdOf(g.out.envelope) == id
    ensures g.Admitted? <==>
              (params.Obj? && FindTool(Get(params.fields, "name", Null)).Some? &&
               FirstAbsent(FindTool(Get(params.fields, "name", Null)).value.required,
                           Get(params.fields, "arguments", Obj(map[]))) == AllPresent &&
               Get(params.fields, "name", Null) != Str("admin_only_tool"))
    ensures g.Admitted? ==> Str(g.name) == Get(params.fields, "name", Null) && g.arguments == Get(params.fields, "arguments", Obj(map[]))
    ensures params.Obj? && FindTool(Get(params.fields, "name", Null)).Some? &&
            FirstAbsent(FindTool(Get(params.fields, "name", Null)).value.required,
                        Get(params.fields, "arguments", Obj(map[]))).MissingArg? ==>
              g == Rejected(Error(id, -32602, "Invalid params: missing required argument " +
                                  FirstAbsent(FindTool(Get(params.fields, "name", Null)).value.required,
                                              Get(params.fields, "arguments", Obj(map[]))).name))
  {
    if !params.Obj? then Rejected(Raised)
    else
      var name := Get(params.fields, "name", Null);
      var arguments := Get(params.fields, "arguments", Obj(map[]));
      match FindTool(name)
      case None => Rejected(Error(id, -32602, "Invalid params: unknown tool name"))
      case Some(tool) =>
        match FirstAbsent(tool.required, arguments)
        case CheckRaised => Rejected(Raised)
        case MissingArg(n) => Rejected(Error(id, -32602, "Invalid params: missing required argument " + n))
        case AllPresent =>
          if name == Str("admin_only_tool") then Rejected(Error(id, -32602, "Unauthorized: admin privileges required"))
          else Admitted(tool.name, arguments)
  }

  const ErrorModes: seq<string> := ["trigger", "error", "fail", "failure", "trigger error"]

  /** `echo_tool`'s sanitiser: delete every "<script>", then every "</script>", each in one pass. */
  function StripScriptTags(text: string): string
  {
    Text.Replace(Text.Replace(text, "<script>", ""), "</script>", "")
  }

  /** `echo`'s sanitiser: escape both script tags, then neutralise two event-handler attributes. */
  function EscapeMarkup(text: string): string
  {
    var t1 := Text.Replace(text, "<script>", "&lt;script&gt;");
    var t2 := Text.Replace(t1, "</script>", "&lt;/script&gt;");
    var t3 := Text.Replace(t2, "onerror=", "data-removed=");
    Text.Replace(t3, "onclick=", "data-removed=")
  }

  /** The replacement texts of `echo` can never take part in one of the four patterns it removes. */
  lemma EscapesAreInert()
    ensures Text.Inert("&lt;script&gt;", "<script>")
    ensures Text.Inert("&lt;/script&gt;", "<script>") && Text.Inert("&lt;/script&gt;", "</script>")
    ensures Text.Inert("data-removed=", "<script>") && Text.Inert("data-removed=", "</script>")
    ensures Text.Inert("data-removed=", "onerror=") && Text.Inert("data-removed=", "onclick=")
  {
    Text.InertByFirstChar("&lt;script&gt;", "<script>");
    Text.InertByFirstChar("&lt;/script&gt;", "<script>");
    Text.InertByFirstChar("&lt;/script&gt;", "</script>");
    Text.InertByFirstChar("data-removed=", "<script>");
    Text.InertByFirstChar("data-removed=", "</script>");
    RemovedInert("onerror=");
    RemovedInert("onclick=");
  }

  /** "data-removed=" is inert for an attribute starting "on" that contains no 'd'. */
  lemma RemovedInert(p: string)
    requires |p| >= 2 && p[0] == 'o' && p[1] == 'n' && 'd' !in p
    ensures Text.Inert("data-removed=", p)
  {
    var rep := "data-removed=";
    forall k | 0 < k < |rep| ensures !Text.PrefixCompatible(rep[k..], p) {
      if k == 8 {
        Text.PrefixCompatibleAt(rep[k..], p, 1);
      } else {
        Text.PrefixCompatibleAt(rep[k..], p, 0);
      }
    }
  }

  /**
   * Whatever the input, the text `echo` returns contains neither script tag
   * nor either event-handler attribute.
   */
  lemma EchoOutputSafe(text: string)
    ensures var out := EscapeMarkup(text);
      && !Text.IsSubstring("<script>", out) && !Text.IsSubstring("</script>", out)
      && !Text.IsSubstring("onerror=", out) && !Text.IsSubstring("onclick=", out)
  {
    EscapesAreInert();
    var t1 := Text.Replace(text, "<script>", "&lt;script&gt;");
    var t2 := Text.Replace(t1, "</script>", "&lt;/script&gt;");
    var t3 := Text.Replace(t2, "onerror=", "data-removed=");
    var t4 := Text.Replace(t3, "onclick=", "data-removed=");
    Text.ReplaceAvoids(text, "<script>", "&lt;script&gt;", "<script>");
    Text.ReplaceAvoids(t1, "</script>", "&lt;/script&gt;", "<script>");
    Text.ReplaceAvoids(t1, "</script>", "&lt;/script&gt;", "</script>");
    Text.ReplaceAvoids(t2, "onerror=", "data-removed=", "<script>");
    Text.ReplaceAvoids(t2, "onerror=", "data-removed=", "</script>");
    Text.ReplaceAvoids(t2, "onerror=", "data-removed=", "onerror=");
    Text.ReplaceAvoids(t3, "onclick=", "data-removed=", "<script>");
    Text.ReplaceAvoids(t3, "onclick=", "data-removed=", "</script>");
    Text.ReplaceAvoids(t3, "onclick=", "data-removed=", "onerror=");
    Text.ReplaceAvoids(t3, "onclick=", "data-removed=", "onclick=");
  }

  /** Text with none of the four patterns passes through `echo` unchanged. */
  lemma EchoKeepsPlainText(text: string)
    requires !Text.IsSubstring("<script>", text) && !Text.IsSubstring("</script>", text)
    requires !Text.IsSubstring("onerror=", text) && !Text.IsSubstring("onclick=", text)
    ensures EscapeMarkup(text) == text
  {
    Text.ReplaceAbsent(text, "<script>", "&lt;script&gt;");
    Text.ReplaceAbsent(text, "</script>", "&lt;/script&gt;");
    Text.ReplaceAbsent(text, "onerror=", "data-removed=");
    Text.ReplaceAbsent(text, "onclick=", "data-removed=");
  }

  /** Sanitising an `echo` output a second time changes nothing. */
  lemma EchoIdempotent(text: string)
    ensures EscapeMarkup(EscapeMarkup(text)) == EscapeMarkup(text)
  {
    EchoOutputSafe(text);
    EchoKeepsPlainText(EscapeMarkup(text));
  }

  /** Text with neither script tag passes through `echo_tool` unchanged. */
  lemma EchoToolKeepsPlainText(text: string)
    requires !Text.IsSubstring("<script>", text) && !Text.IsSubstring("</script>", text)
    ensures StripScriptTags(text) == text
  {
    Text.ReplaceAbsent(text, "<script>", "");
    Text.ReplaceAbsent(text, "</script>", "");
  }

  /**
   * `echo_tool` deletes each tag in a single pass, so deleting an inner tag
   * can join the characters around it into a new one: "<scr<script>ipt>"
   * comes back as "Echo: <script>".
   */
  lemma EchoToolReformsScript(text: string)
    requires text == "<scr<script>ipt>"
    ensures StripScriptTags(text) == "<script>"
    ensures Text.IsSubstring("<script>", "Echo: " + StripScriptTags(text))
  {
    var tag := "<script>";
    DeleteInnerTag(text, tag);
    Text.ReplaceAbsent(tag, "</script>", "");
    ScriptTagInEcho("Echo: " + tag, tag);
  }

  lemma ScriptTagInEcho(out: string, tag: string)
    requires tag == "<script>" && out == "Echo: " + tag
    ensures Text.IsSubstring(tag, out)
  {
    assert out[6..] == tag;
    Text.SubstringOfSuffix(tag, out, 6);
  }

  /** Deleting "<script>" from "<scr<script>ipt>" leaves "<script>". */
  lemma DeleteInnerTag(s: string, tag: string)
    requires s == "<scr<script>ipt>" && tag == "<script>"
    ensures Text.Replace(s, tag, "") == tag
  {
    assert s[..8][4] != tag[4];
    assert s[1..9][0] != tag[0];
    assert s[2..10][0] != tag[0];
    assert s[3..11][0] != tag[0];
    DeleteTagAtFour(s, tag);
    assert s[..4] + s[12..] == tag;
  }

  /** A tag that starts at position 4 of a 16-character text, and nowhere earlier, is cut out of it. */
  lemma DeleteTagAtFour(s: string, tag: string)
    requires |s| == 16 && |tag| == 8 && s[4..12] == tag
    requires s[..8] != tag && s[1..9] != tag && s[2..10] != tag && s[3..11] != tag
    ensures Text.Replace(s, tag, "") == s[..4] + s[12..]
  {
    assert s[4..][..8] == tag;
    Text.ReplaceHit(s[4..], tag, "");
    assert s[4..][8..] == s[12..];
    Text.ReplaceShort(s[12..], tag, "");
    assert s[3..][..8] == s[3..11] && s[3..][1..] == s[4..];
    Text.ReplaceMiss(s[3..], tag, "");
    assert s[2..][..8] == s[2..10] && s[2..][1..] == s[3..];
    Text.ReplaceMiss(s[2..], tag, "");
    assert s[1..][..8] == s[1..9] && s[1..][1..] == s[2..];
    Text.ReplaceMiss(s[1..], tag, "");
    Text.ReplaceMiss(s, tag, "");
    assert s[..4] == [s[0], s[1], s[2], s[3]];
  }

  function TextResult(text: string): Json
  {
    Obj(map["content" := Arr([Schema.ContentJson(Schema.TextContent(text))])])
  }

  /** The `str` argument `key` of a tools call, read with `arguments.get(key, "")`; None when Python would raise. */
  function StrArgument(arguments: Json, key: string): Option<string>
  {
    if !arguments.Obj? then None
    else
      var v := Get(arguments.fields, key, Str(""));
      if v.Str? then Some(v.s) else None
  }

  /**
   * A tool result whose `content` is a non-empty list of text items only and
   * whose `isError` flag (false when absent) is `isError`.
   */
  predicate TextOnlyResult(res: Json, isError: bool)
  {
    res.Obj? && "content" in res.fields && res.fields["content"].Arr? && |res.fields["content"].items| > 0 &&
    (forall item :: item in res.fields["content"].items ==>
       Schema.ParseContent(item).Some? && Schema.ParseContent(item).value.TextContent?) &&
    Get(res.fields, "isError", Bool(false)) == Bool(isError)
  }

  /**
   * What `handle_tools_call` answers once a call has passed the gate and the
   * rate limit: the error tool's failure report, the two echo tools, or the
   * generic success text. It never answers with an error envelope; it raises
   * exactly when a tool that reads `mode` or `text` finds something other than
   * a string there (or `arguments` is not an object).
   */
  function ToolResult(id: Json, name: string, arguments: Json): (r: Outcome)
    ensures r.Answer? ==> IsSuccess(r.envelope) && IdOf(r.envelope) == id && OutcomeCode(r).None?
    ensures r.Raised? <==>
              (name == "error_tool" && StrArgument(arguments, "mode").None?) ||
              ((name == "echo_tool" || name == "echo") && StrArgument(arguments, "text").None?)
    ensures name == "error_tool" && StrArgument(arguments, "mode").Some? &&
            Text.LowerAscii(StrArgument(arguments, "mode").value) in ErrorModes ==>
              r.Answer? && TextOnlyResult(ResultOf(r.envelope), true) &&
              |ResultOf(r.envelope).fields["content"].items| == 1
    ensures name !in {"error_tool", "echo_tool", "echo"} ||
            (name == "error_tool" && StrArgument(arguments, "mode").Some? &&
             Text.LowerAscii(StrArgument(arguments, "mode").value) !in ErrorModes) ==>
              r.Answer? && TextOnlyResult(ResultOf(r.envelope), false)
    ensures name == "echo_tool" && StrArgument(arguments, "text").Some? ==>
              r == Success(id, TextResult("Echo: " + StripScriptTags(StrArgument(arguments, "text").value)))
    ensures name == "echo" && StrArgument(arguments, "text").Some? ==>
              r == Success(id, Obj(map["output" := Str(EscapeMarkup(StrArgument(arguments, "text").value))]))
  {
    if name == "error_tool" && StrArgument(arguments, "mode").None? then Raised
    else if name == "error_tool" && Text.LowerAscii(StrArgument(arguments, "mode").value) in ErrorModes then
      Success(id, Obj(map[
        "content" := Arr([Schema.ContentJson(Schema.TextContent(
                       "Error occurred: The external API returned a rate limit exceeded error."))]),
        "isError" := Bool(true)]))
    else if name == "echo_tool" then
      match StrArgument(arguments, "text")
      case None => Raised
      case Some(text) => Success(id, TextResult("Echo: " + StripScriptTags(text)))
    else if name == "echo" then
      match StrArgument(arguments, "text")
      case None => Raised
      case Some(text) => Success(id, Obj(map["output" := Str(EscapeMarkup(text))]))
    else
      Success(id, TextResult("Tool " + name + " executed successfully with arguments: " + Show(arguments)))
  }

  // ---------------------------------------------------------------- completion/complete

  function CompletionResult(values: seq<string>): Json
  {
    Obj(map["completion" := Obj(map[
      "values" := Arr(seq(|values|, i requires 0 <= i < |values| => Str(values[i]))),
      "hasMore" := Bool(false)])])
  }

  /** The three completions offered for a typed prefix. */
  function PromptCompletions(prefix: string): seq<string>
  {
    [prefix + "ample", prefix + "pert", prefix + "cellent"]
  }

  function ResourceCompletions(prefix: string): seq<string>
  {
    [prefix + "file1.txt", prefix + "file2.json", prefix + "directory/"]
  }

  /**
   * `handle_completion_complete`: a "ref/prompt" reference must name a listed
   * prompt and, when that prompt declares arguments, one of them; a
   * "ref/resource" reference always succeeds; any other reference type is
   * -32602. A success carries three values each starting with the typed
   * `argument.value`, and `hasMore` false.
   */
  function CompletionComplete(id: Json, params: Json): (r: Outcome)
    ensures !params.Obj? ==> r == Raised
    ensures r.Answer? ==> IsResponse(r.envelope) && IdOf(r.envelope) == id
    ensures r.Answer? && !IsSuccess(r.envelope) ==> OutcomeCode(r) == Some(-32602)
    ensures r.Answer? && IsSuccess(r.envelope) ==>
              params.Obj? && Get(params.fields, "argument", Obj(map[])).Obj? &&
              var prefix := Show(Get(Get(params.fields, "argument", Obj(map[])).fields, "value", Str("")));
              (ResultOf(r.envelope) == CompletionResult(PromptCompletions(prefix)) ||
               ResultOf(r.envelope) == CompletionResult(ResourceCompletions(prefix)))
    ensures params.Obj? && Get(params.fields, "ref", Obj(map[])).Obj? &&
            Get(Get(params.fields, "ref", Obj(map[])).fields, "type", Null) == Str("ref/prompt") &&
            Get(params.fields, "argument", Obj(map[])).Obj? ==>
              (r.Answer? && IsSuccess(r.envelope) <==>
                 var name := Get(Get(params.fields, "ref", Obj(map[])).fields, "name", Null);
                 var argName := Get(Get(params.fields, "argument", Obj(map[])).fields, "name", Null);
                 FindPrompt(name).Some? &&
                 (FindPrompt(name).value.arguments.Some? ==>
                    exists a :: a in FindPrompt(name).value.arguments.value && Str(a.name) == argName))
    ensures params.Obj? && Get(params.fields, "ref", Obj(map[])).Obj? &&
            Get(Get(params.fields, "ref", Obj(map[])).fields, "type", Null) == Str("ref/resource") &&
            Get(params.fields, "argument", Obj(map[])).Obj? ==>
              r.Answer? && IsSuccess(r.envelope)
    ensures params.Obj? && Get(params.fields, "ref", Obj(map[])).Obj? &&
            Get(Get(params.fields, "ref", Obj(map[])).fields, "type", Null) !in {Str("ref/prompt"), Str("ref/resource")} ==>
              OutcomeCode(r) == Some(-32602)
  {
    if !params.Obj? then Raised
    else
      var reference := Get(params.fields, "ref", Obj(map[]));
      var argument := Get(params.fields, "argument", Obj(map[]));
      if !reference.Obj? then Raised
      else
        var refType := Get(reference.fields, "type", Null);
        if refType == Str("ref/prompt") then
          var promptName := Get(reference.fields, "name", Null);
          if !argument.Obj? then Raised
          else
            var argName := Get(argument.fields, "name", Null);
            var argValue := Get(argument.fields, "value", Str(""));
            match FindPrompt(promptName)
            case None =>
              Error(id, -32602, "Invalid params: unknown prompt name '" + Show(promptName) + "'")
            case Some(prompt) =>
              if prompt.arguments.Some? &&
                 First(prompt.arguments.value, (a: Schema.Argument) => Str(a.name) == argName).None?
              then
                Error(id, -32602, "Invalid params: unknown argument '" + Show(argName) + "' for prompt '"
                                  + Show(promptName) + "'")
              else Success(id, CompletionResult(PromptCompletions(Show(argValue))))
        else if refType == Str("ref/resource") then
          if !argument.Obj? then Raised
          else
            var argValue := Get(argument.fields, "value", Str(""));
            Success(id, CompletionResult(ResourceCompletions(Show(argValue))))
        else Error(id, -32602, "Invalid params: unsupported ref type " + Show(refType))
  }

  // ---------------------------------------------------------------- dispatch

  /** The methods `handle_rpc` answers; any other is -32601. */
  const KnownMethods: set<string> := {
    "server/capabilities", "prompts/list", "prompts/get", "resources/list", "resources/templates/list",
    "resources/read", "resources/subscribe", "tools/list", "tools/call", "completion/complete"
  }

  /**
   * Where `handle_rpc` goes with a request body once the one-shot invalid-JSON
   * flag is off: a finished HTTP reply, or a `tools/call` that still has to
   * pass the rate counter of the server state.
   */
  datatype Step = Finished(reply: HttpReply) | ToolsCall(id: Json, params: Json)

  /** The body is a valid JSON-RPC request for the method `m`. */
  predicate Calls(body: Body, m: string)
  {
    body.Parsed? && body.value.Obj? && ValidateRequest(body.value.fields).None? &&
    body.value.fields["method"] == Str(m)
  }

  /** The id a request is answered with: its `id`, or 1 when it has none. */
  function RequestId(body: Body): Json
    requires body.Parsed? && body.value.Obj?
  {
    Get(body.value.fields, "id", Num(1))
  }

  /** The params a request is handled with: its `params`, or an empty object. */
  function RequestParams(body: Body): Json
    requires body.Parsed? && body.value.Obj?
  {
    Get(body.value.fields, "params", Obj(map[]))
  }

  /**
   * `handle_rpc` without its state: the framework's parse, envelope
   * validation (an invalid envelope is answered with the request's `id` or
   * null), then dispatch on the method with the request id defaulting to 1
   * and `params` defaulting to an empty object.
   */
  function Route(body: Body): (s: Step)
    ensures body.Unparsable? ==> s == Finished(TextReply(400, "Invalid JSON"))
    ensures body.Parsed? && !body.value.Obj? ==> s == Finished(ErrorPage(500))
    ensures body.Parsed? && body.value.Obj? && ValidateRequest(body.value.fields).Some? ==>
              s == Finished(JsonReply(200, ValidateRequest(body.value.fields).value))
    ensures s.ToolsCall? <==>
              (body.Parsed? && body.value.Obj? && ValidateRequest(body.value.fields).None? &&
               body.value.fields["method"] == Str("tools/call"))
    ensures s.ToolsCall? ==>
              s.id == Get(body.value.fields, "id", Num(1)) && s.params == Get(body.value.fields, "params", Obj(map[]))
    ensures s.Finished? && s.reply.JsonReply? ==> s.reply.status == 200 && IsResponse(s.reply.body)
    ensures body.Parsed? && body.value.Obj? && ValidateRequest(body.value.fields).None? &&
            s.Finished? && s.reply.JsonReply? ==>
              IdOf(s.reply.body) == Get(body.value.fields, "id", Num(1))
    ensures body.Parsed? && body.value.Obj? && ValidateRequest(body.value.fields).None? &&
            body.value.fields["method"].s !in KnownMethods ==>
              s == Finished(JsonReply(200, ErrorResponse(Get(body.value.fields, "id", Num(1)), -32601, "Method not found")))
    ensures Calls(body, "server/capabilities") ==>
              s == Finished(JsonReply(200, SuccessResponse(RequestId(body), Obj(map["capabilities" := Capabilities()]))))
    ensures Calls(body, "prompts/list") ==> s == Finished(JsonReply(200, SuccessResponse(RequestId(body), PromptsListing())))
    ensures Calls(body, "resources/list") ==> s == Finished(JsonReply(200, SuccessResponse(RequestId(body), ResourcesListing())))
    ensures Calls(body, "resources/templates/list") ==>
              s == Finished(JsonReply(200, SuccessResponse(RequestId(body), TemplatesListing())))
    ensures Calls(body, "tools/list") ==> s == Finished(JsonReply(200, SuccessResponse(RequestId(body), ToolsListing())))
    ensures Calls(body, "prompts/get") ==> s == Finished(ReplyOf(PromptsGet(RequestId(body), RequestParams(body))))
    ensures Calls(body, "resources/read") ==> s == Finished(ReplyOf(ResourcesRead(RequestId(body), RequestParams(body))))
    ensures Calls(body, "resources/subscribe") ==>
              s == Finished(ReplyOf(ResourcesSubscribe(RequestId(body), RequestParams(body))))
    ensures Calls(body, "completion/complete") ==>
              s == Finished(ReplyOf(CompletionComplete(RequestId(body), RequestParams(body))))
  {
    match body
    case Unparsable => Finished(TextReply(400, "Invalid JSON"))
    case Parsed(req) =>
      if !req.Obj? then Finished(ErrorPage(500))
      else
        var id := Get(req.fields, "id", Num(1));
        match ValidateRequest(req.fields)
        case Some(error) => Finished(JsonReply(200, error))
        case None => Dispatch(id, req.fields["method"].s, Get(req.fields, "params", Obj(map[])))
  }

  /** The method dispatch of `handle_rpc` for a valid request. */
  function Dispatch(id: Json, called: string, params: Json): (s: Step)
    ensures s.ToolsCall? <==> called == "tools/call"
    ensures s.ToolsCall? ==> s.id == id && s.params == params
    ensures s.Finished? && s.reply.JsonReply? ==> s.reply.status == 200 && IsResponse(s.reply.body) && IdOf(s.reply.body) == id
    ensures called !in KnownMethods ==> s == Finished(JsonReply(200, ErrorResponse(id, -32601, "Method not found")))
    ensures called == "server/capabilities" ==>
              s == Finished(JsonReply(200, SuccessResponse(id, Obj(map["capabilities" := Capabilities()]))))
    ensures called == "prompts/list" ==> s == Finished(JsonReply(200, SuccessResponse(id, PromptsListing())))
    ensures called == "resources/list" ==> s == Finished(JsonReply(200, SuccessResponse(id, ResourcesListing())))
    ensures called == "resources/templates/list" ==> s == Finished(JsonReply(200, SuccessResponse(id, TemplatesListing())))
    ensures called == "tools/list" ==> s == Finished(JsonReply(200, SuccessResponse(id, ToolsListing())))
    ensures called == "prompts/get" ==> s == Finished(ReplyOf(PromptsGet(id, params)))
    ensures called == "resources/read" ==> s == Finished(ReplyOf(ResourcesRead(id, params)))
    ensures called == "resources/subscribe" ==> s == Finished(ReplyOf(ResourcesSubscribe(id, params)))
    ensures called == "completion/complete" ==> s == Finished(ReplyOf(CompletionComplete(id, params)))
  {
    if called == "server/capabilities" then
      Finished(JsonReply(200, SuccessResponse(id, Obj(map["capabilities" := Capabilities()]))))
    else if called == "prompts/list" then Finished(JsonReply(200, SuccessResponse(id, PromptsListing())))
    else if called == "prompts/get" then Finished(ReplyOf(PromptsGet(id, params)))
    else if called == "resources/list" then Finished(JsonReply(200, SuccessResponse(id, ResourcesListing())))
    else if called == "resources/templates/list" then
      Finished(JsonReply(200, SuccessResponse(id, TemplatesListing())))
    else if called == "resources/read" then Finished(ReplyOf(ResourcesRead(id, params)))
    else if called == "resources/subscribe" then Finished(ReplyOf(ResourcesSubscribe(id, params)))
    else if called == "tools/list" then Finished(JsonReply(200, SuccessResponse(id, ToolsListing())))
    else if called == "tools/call" then ToolsCall(id, params)
    else if called == "completion/complete" then Finished(ReplyOf(CompletionComplete(id, params)))
    else Finished(JsonReply(200, ErrorResponse(id, -32601, "Method not found")))
  }
}
