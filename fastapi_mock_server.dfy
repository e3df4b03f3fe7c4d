/**
 * The FastAPI mock server: a stateless JSON-RPC endpoint that answers
 * `capabilities/get`, `prompts/list` (whole, or in two pages linked by a
 * cursor) and `prompts/get` from fixed data. Every JSON-RPC answer, errors
 * included, goes out with HTTP status 200; an exception nobody catches
 * becomes the framework's 500 page.
 */
module FastApiMockServer {
  import opened JsonData
  import opened JsonRpc
  import opened Schema

  // ---------------------------------------------------------------- fixed data

  const Capabilities: Json := Obj(map["prompts" := Obj(map["listChanged" := Bool(true)])])

  const Chat := Prompt("chat", "A chat-style prompt that maintains conversation context", Some([
    Argument("messages", "Array of message objects with role and content", true),
    Argument("temperature", "Controls randomness in the response", false)]))

  const Complete := Prompt("complete", "Simple completion prompt", Some([
    Argument("prompt", "The text prompt to complete", true)]))

  const MockPrompts := PromptsListResult([Chat, Complete], None)

  /** The first page names the cursor of the second; the second has none. */
  const PageOne := PromptsListResult([Chat], Some("page2"))
  const PageTwo := PromptsListResult([Complete], None)

  const ChatContent := PromptsGetResult(Some("A chat conversation about Python programming"), [
    PromptMessage(User, TextContent("How do I write a Python function?")),
    PromptMessage(Assistant, TextContent("To write a Python function, use the 'def' keyword followed by the function name and parameters in parentheses.")),
    PromptMessage(Assistant, ImageContent("base64_encoded_image_data", "image/png")),
    PromptMessage(Assistant, ResourceContent(map[
      "uri" := "https://docs.python.org/3/tutorial/controlflow.html#defining-functions",
      "mimeType" := "text/html",
      "text" := "Python documentation on defining functions"]))])

  const CompleteContent := PromptsGetResult(Some("A simple completion example"), [
    PromptMessage(User, TextContent("Complete this code snippet")),
    PromptMessage(Assistant, TextContent("Here's the completed code"))])

  /** The `prompts/get` payload of each prompt name. */
  const PromptContent: map<string, PromptsGetResult> := map["chat" := ChatContent, "complete" := CompleteContent]

  // ---------------------------------------------------------------- envelopes

  function Response(id: Json, result: Json): (r: Json)
    ensures IsSuccess(r) && IdOf(r) == id && ResultOf(r) == result
  {
    Obj(map["jsonrpc" := Str("2.0"), "id" := id, "result" := result])
  }

  function ErrorEnvelope(id: Json, code: int, message: string): (r: Json)
    ensures IsResponse(r) && !IsSuccess(r) && IdOf(r) == id && ErrorCode(r) == Some(code) && MessageOf(r) == message
  {
    Obj(map["jsonrpc" := Str("2.0"), "id" := id, "error" := Obj(map["code" := Num(code), "message" := Str(message)])])
  }

  // ---------------------------------------------------------------- prompts/list

  /**
   * `prompts/list`: the cursor "page2" selects the second page, any other
   * truthy cursor is -32602, and otherwise a truthy `use_pagination` selects
   * the first page and anything else the whole listing. A `params` that is
   * not an object raises (even a falsy one: `use_pagination` is read without
   * the guard that protects the cursor).
   */
  function ListPrompts(id: Json, params: Json): (r: Outcome)
    ensures !params.Obj? ==> r == Raised
    ensures params.Obj? ==> r.Answer? && IsResponse(r.envelope) && IdOf(r.envelope) == id
    ensures params.Obj? && Get(params.fields, "cursor", Null) == Str("page2") ==>
              r == Answer(Response(id, PromptsListJson(PageTwo)))
    ensures params.Obj? && Truthy(Get(params.fields, "cursor", Null)) && Get(params.fields, "cursor", Null) != Str("page2") ==>
              OutcomeCode(r) == Some(-32602)
    ensures params.Obj? && !Truthy(Get(params.fields, "cursor", Null)) ==>
              r == Answer(Response(id, PromptsListJson(
                     if Truthy(Get(params.fields, "use_pagination", Bool(false))) then PageOne else MockPrompts)))
  {
    if !params.Obj? then Raised
    else
      var cursor := if Truthy(params) then Get(params.fields, "cursor", Null) else Null;
      if cursor == Str("page2") then Answer(Response(id, PromptsListJson(PageTwo)))
      else if Truthy(cursor) then Answer(ErrorEnvelope(id, -32602, "Invalid cursor"))
      else if Truthy(Get(params.fields, "use_pagination", Bool(false))) then Answer(Response(id, PromptsListJson(PageOne)))
      else Answer(Response(id, PromptsListJson(MockPrompts)))
  }

  // ---------------------------------------------------------------- prompts/get

  /** How the argument checks of `prompts/get` end. */
  datatype ArgVerdict = Accepted | Refused(message: string) | CheckRaised

  /** Whether a declared argument passes its checks against supplied arguments that are an object. */
  predicate ArgumentOk(a: Argument, supplied: map<string, Json>)
  {
    (a.required ==> a.name in supplied) && (a.name in supplied ==> supplied[a.name].Str?)
  }

  /** The refusal message for a declared argument that fails its checks: absence is tested before type. */
  function Refusal(a: Argument, supplied: map<string, Json>): string
  {
    if a.required && a.name !in supplied then "Missing required argument: " + a.name
    else "Invalid type for argument " + a.name + ": expected string"
  }

  /**
   * The loop over a prompt's declared arguments: a required argument must be
   * `in` the supplied arguments, and any declared argument that is `in` them
   * must be a string. Supplied arguments that are not an object raise as soon
   * as they are tested (a list or a string cannot be indexed by name).
   */
  function CheckArguments(args: seq<Argument>, supplied: Json): (r: ArgVerdict)
    ensures supplied.Obj? ==>
              (r == Accepted <==>
                 forall i :: 0 <= i < |args| ==>
                   (args[i].required ==> args[i].name in supplied.fields) &&
                   (args[i].name in supplied.fields ==> supplied.fields[args[i].name].Str?))
    ensures supplied.Obj? ==> r != CheckRaised
    ensures args != [] && !(supplied.Obj? || supplied.Arr? || supplied.Str?) ==> r == CheckRaised
    ensures supplied.Obj? ==>
              forall k :: 0 <= k < |args| && !ArgumentOk(args[k], supplied.fields) &&
                          (forall i :: 0 <= i < k ==> ArgumentOk(args[i], supplied.fields)) ==>
                r == Refused(Refusal(args[k], supplied.fields))
    ensures supplied.Obj? && r.Refused? ==>
              exists k :: 0 <= k < |args| && r.message == Refusal(args[k], supplied.fields) &&
                          !ArgumentOk(args[k], supplied.fields)
    decreases |args|
  {
    if args == [] then Accepted
    else
      var a := args[0];
      var present := PyIn(a.name, supplied);
      if present.None? then CheckRaised
      else if a.required && !present.value then Refused("Missing required argument: " + a.name)
      else if present.value && !supplied.Obj? then CheckRaised
      else if present.value && !supplied.fields[a.name].Str? then
        Refused("Invalid type for argument " + a.name + ": expected string")
      else CheckArguments(args[1..], supplied)
  }

  /** The declared arguments of a prompt; a prompt without `arguments` declares none. */
  function DeclaredArguments(p: Prompt): seq<Argument>
  {
    if p.arguments.Some? then p.arguments.value else []
  }

  /** The definition of the listed prompt called `name`, as `next(...)` looks it up. */
  function Definition(name: Json): (r: Option<Prompt>)
    ensures r.Some? ==> r.value in MockPrompts.prompts && name == Str(r.value.name)
  {
    First(MockPrompts.prompts, (p: Prompt) => Str(p.name) == name)
  }

  /** Every name that has content has a listed definition. */
  lemma DefinitionFound(name: string)
    ensures name in PromptContent ==> Definition(Str(name)) == Some(if name == "chat" then Chat else Complete)
  {
    if name == "complete" {
      var xs := MockPrompts.prompts;
      var matches := (p: Prompt) => Str(p.name) == Str(name);
      assert matches(xs[1]) && !matches(xs[0]);
      var r := First(xs, matches);
      var i :| 0 <= i < |xs| && xs[i] == r.value && matches(xs[i]) && forall j :: 0 <= j < i ==> !matches(xs[j]);
      assert i == 1;
    }
  }

  /**
   * `prompts/get`: a falsy or unknown name is -32602, a list or object as the
   * name raises (it cannot be a dict key), failed argument checks are -32602,
   * and otherwise the fixed content of the prompt is returned.
   */
  function GetPrompt(id: Json, params: Json): (r: Outcome)
    ensures !params.Obj? ==> r == Raised
    ensures r.Answer? ==> IsResponse(r.envelope) && IdOf(r.envelope) == id
    ensures r.Answer? && !IsSuccess(r.envelope) ==> OutcomeCode(r) in {Some(-32602), Some(-32603)}
    ensures OutcomeCode(r) == Some(-32603) ==> Definition(Get(params.fields, "name", Null)).None?
    ensures r.Answer? && IsSuccess(r.envelope) ==>
              exists name :: name in PromptContent && Get(params.fields, "name", Null) == Str(name) &&
                ResultOf(r.envelope) == PromptsGetJson(PromptContent[name])
    ensures params.Obj? && Get(params.fields, "name", Null).Str? && Get(params.fields, "name", Null).s !in PromptContent ==>
              OutcomeCode(r) == Some(-32602)
    ensures params.Obj? && !Truthy(Get(params.fields, "name", Null)) ==>
              r == Answer(ErrorEnvelope(id, -32602, "Invalid prompt name"))
    ensures params.Obj? && Truthy(Get(params.fields, "name", Null)) &&
            (Get(params.fields, "name", Null).Num? || Get(params.fields, "name", Null).Bool?) ==>
              r == Answer(ErrorEnvelope(id, -32602, "Invalid prompt name"))
    ensures params.Obj? && Truthy(Get(params.fields, "name", Null)) &&
            (Get(params.fields, "name", Null).Arr? || Get(params.fields, "name", Null).Obj?) ==>
              r == Raised
    ensures params.Obj? && Get(params.fields, "arguments", Obj(map[])).Obj? &&
            Get(params.fields, "name", Null).Str? && Get(params.fields, "name", Null).s in PromptContent &&
            Definition(Get(params.fields, "name", Null)).Some? ==>
              r.Answer? &&
              (IsSuccess(r.envelope) <==>
                 CheckArguments(DeclaredArguments(Definition(Get(params.fields, "name", Null)).value),
                                Get(params.fields, "arguments", Obj(map[]))) == Accepted)
    ensures params.Obj? && Get(params.fields, "name", Null).Str? && Get(params.fields, "name", Null).s in PromptContent &&
            Definition(Get(params.fields, "name", Null)).Some? &&
            CheckArguments(DeclaredArguments(Definition(Get(params.fields, "name", Null)).value),
                           Get(params.fields, "arguments", Obj(map[]))).Refused? ==>
              r == Answer(ErrorEnvelope(id, -32602,
                     CheckArguments(DeclaredArguments(Definition(Get(params.fields, "name", Null)).value),
                                    Get(params.fields, "arguments", Obj(map[]))).message))
  {
    if !params.Obj? then Raised
    else
      var name := Get(params.fields, "name", Null);
      var arguments := Get(params.fields, "arguments", Obj(map[]));
      if !Truthy(name) then Answer(ErrorEnvelope(id, -32602, "Invalid prompt name"))
      else match KeyIn(name, PromptContent.Keys)
        case None => Raised
        case Some(known) =>
          if !known then Answer(ErrorEnvelope(id, -32602, "Invalid prompt name"))
          else match Definition(name)
            case None => Answer(ErrorEnvelope(id, -32603, "Internal error: prompt not found"))
            case Some(definition) =>
              match CheckArguments(DeclaredArguments(definition), arguments)
              case CheckRaised => Raised
              case Refused(message) => Answer(ErrorEnvelope(id, -32602, message))
              case Accepted => Answer(Response(id, PromptsGetJson(PromptContent[name.s])))
  }

  // ---------------------------------------------------------------- the endpoint

  /**
   * `handle_jsonrpc`: a body that is not JSON is a -32700 error and a JSON
   * value that is not an object a -32600 error, both with a null id; a falsy
   * or non-string `method` is -32600 with the request's id; a method other
   * than the three served is -32601 naming it. The `jsonrpc` member is never
   * checked. Every JSON-RPC answer is a well-formed envelope sent with 200.
   */
  function HandleJsonRpc(body: Body): (r: HttpReply)
    ensures r == ErrorPage(500) || (r.JsonReply? && r.status == 200 && IsResponse(r.body))
    ensures body.Unparsable? ==> r == JsonReply(200, ErrorEnvelope(Null, -32700, "Parse error"))
    ensures body.Parsed? && !body.value.Obj? ==> r == JsonReply(200, ErrorEnvelope(Null, -32600, "Invalid Request"))
    ensures body.Parsed? && body.value.Obj? && !(Truthy(Get(body.value.fields, "method", Null)) && Get(body.value.fields, "method", Null).Str?) ==>
              r == JsonReply(200, ErrorEnvelope(Get(body.value.fields, "id", Null), -32600, "Invalid Request"))
    ensures body.Parsed? && body.value.Obj? && Truthy(Get(body.value.fields, "method", Null)) &&
            Get(body.value.fields, "method", Null).Str? &&
            Get(body.value.fields, "method", Null).s !in {"capabilities/get", "prompts/list", "prompts/get"} ==>
              r == JsonReply(200, ErrorEnvelope(Get(body.value.fields, "id", Null), -32601,
                                                "Method " + Get(body.value.fields, "method", Null).s + " not found"))
    ensures body.Parsed? && body.value.Obj? && r.JsonReply? ==>
              IdOf(r.body) == Get(body.value.fields, "id", Null) || ErrorCode(r.body) == Some(-32600)
    ensures body.Parsed? && body.value.Obj? && Get(body.value.fields, "method", Null) == Str("capabilities/get") ==>
              r == JsonReply(200, Response(Get(body.value.fields, "id", Null), Capabilities))
    ensures body.Parsed? && body.value.Obj? && Get(body.value.fields, "method", Null) == Str("prompts/list") ==>
              r == ReplyOf(ListPrompts(Get(body.value.fields, "id", Null), Get(body.value.fields, "params", Obj(map[]))))
    ensures body.Parsed? && body.value.Obj? && Get(body.value.fields, "method", Null) == Str("prompts/get") ==>
              r == ReplyOf(GetPrompt(Get(body.value.fields, "id", Null), Get(body.value.fields, "params", Obj(map[]))))
  {
    match body
    case Unparsable => JsonReply(200, ErrorEnvelope(Null, -32700, "Parse error"))
    case Parsed(data) =>
      if !data.Obj? then JsonReply(200, ErrorEnvelope(Null, -32600, "Invalid Request"))
      else
        var called := Get(data.fields, "method", Null);
        var params := Get(data.fields, "params", Obj(map[]));
        var id := Get(data.fields, "id", Null);
        if !Truthy(called) || !called.Str? then JsonReply(200, ErrorEnvelope(id, -32600, "Invalid Request"))
        else if called.s == "capabilities/get" then JsonReply(200, Response(id, Capabilities))
        else if called.s == "prompts/list" then ReplyOf(ListPrompts(id, params))
        else if called.s == "prompts/get" then ReplyOf(GetPrompt(id, params))
        else JsonReply(200, ErrorEnvelope(id, -32601, "Method " + called.s + " not found"))
  }

  /** The request body of a call with the given method and params. */
  function Request(id: Json, called: string, params: Json): Body
  {
    Parsed(Obj(map["jsonrpc" := Str("2.0"), "id" := id, "method" := Str(called), "params" := params]))
  }

  // ---------------------------------------------------------------- properties

  /** The listed prompts have distinct names, and each has content. */
  lemma ListingMatchesContent()
    ensures forall i, j :: 0 <= i < j < |MockPrompts.prompts| ==> MockPrompts.prompts[i].name != MockPrompts.prompts[j].name
    ensures forall i :: 0 <= i < |MockPrompts.prompts| ==> MockPrompts.prompts[i].name in PromptContent
    ensures forall n :: n in PromptContent ==> exists i :: 0 <= i < |MockPrompts.prompts| && MockPrompts.prompts[i].name == n
  {
    forall n | n in PromptContent
      ensures exists i :: 0 <= i < |MockPrompts.prompts| && MockPrompts.prompts[i].name == n
    {
      if n == "chat" {
        assert MockPrompts.prompts[0].name == n;
      } else {
        assert MockPrompts.prompts[1].name == n;
      }
    }
  }

  /**
   * The lookup of the prompt definition after the name check always succeeds,
   * so the -32603 answer is never sent.
   */
  lemma NoInternalError(body: Body)
    ensures var r := HandleJsonRpc(body); r.JsonReply? ==> ErrorCode(r.body) != Some(-32603)
  {
    if body.Parsed? && body.value.Obj? {
      var params := Get(body.value.fields, "params", Obj(map[]));
      if params.Obj? && Get(params.fields, "name", Null).Str? {
        DefinitionFound(Get(params.fields, "name", Null).s);
      }
    }
  }

  /** With pagination asked for, the first page comes back, and it validates as a listing with a cursor. */
  lemma FirstPage(id: Json)
    ensures var r := HandleJsonRpc(Request(id, "prompts/list", Obj(map["use_pagination" := Bool(true)])));
      r == JsonReply(200, Response(id, PromptsListJson(PageOne))) &&
      ParsePromptsListResult(PromptsListJson(PageOne)) == Some(PageOne) && PageOne.nextCursor == Some("page2")
  {
    PromptsListRoundTrip(PageOne);
  }

  /** Asking with the cursor "page2" gives the second page, which validates as a listing with no cursor. */
  lemma SecondPage(id: Json)
    ensures var r := HandleJsonRpc(Request(id, "prompts/list", Obj(map["cursor" := Str("page2")])));
      r == JsonReply(200, Response(id, PromptsListJson(PageTwo))) &&
      ParsePromptsListResult(PromptsListJson(PageTwo)) == Some(PageTwo) && PageTwo.nextCursor.None?
  {
    PromptsListRoundTrip(PageTwo);
  }

  /**
   * Following the pagination from the first page to the second lists exactly
   * the prompts of the unpaginated listing, in order, and each prompt once.
   */
  lemma PaginationCoversListing(id: Json)
    ensures var whole := HandleJsonRpc(Request(id, "prompts/list", Obj(map[])));
      whole == JsonReply(200, Response(id, PromptsListJson(MockPrompts))) &&
      ParsePromptsListResult(PromptsListJson(MockPrompts)) == Some(MockPrompts)
    ensures PageOne.prompts + PageTwo.prompts == MockPrompts.prompts
    ensures forall p :: p in PageOne.prompts ==> p !in PageTwo.prompts
  {
    PromptsListRoundTrip(MockPrompts);
  }

  /** Every successful `prompts/get` answer validates as a `prompts/get` result and decodes to the prompt's content. */
  lemma ContentValidates(id: Json, params: Json)
    ensures var r := GetPrompt(id, params);
      r.Answer? && IsSuccess(r.envelope) ==>
        exists name :: name in PromptContent && ParsePromptsGetResult(ResultOf(r.envelope)) == Some(PromptContent[name])
  {
    var r := GetPrompt(id, params);
    if r.Answer? && IsSuccess(r.envelope) {
      var name :| name in PromptContent && ResultOf(r.envelope) == PromptsGetJson(PromptContent[name]);
      StoredContentValidates(name);
    }
  }

  /** The stored content of each prompt validates as a `prompts/get` result. */
  lemma StoredContentValidates(name: string)
    requires name in PromptContent
    ensures ParsePromptsGetResult(PromptsGetJson(PromptContent[name])) == Some(PromptContent[name])
  {
    if name == "chat" {
      PromptsGetRoundTrip(ChatContent);
    } else {
      PromptsGetRoundTrip(CompleteContent);
    }
  }
}
