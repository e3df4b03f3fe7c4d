/**
 * The MCP client: each `send` takes the next request id, builds a JSON-RPC
 * request, posts it, and turns the decoded reply into a result or an error.
 * The HTTP exchange is a parameter: a function from the request to what the
 * transport delivered.
 */
module Client {
  import opened JsonData

  /** What the HTTP post of a request ends with. */
  datatype Transport =
    | Delivered(data: Json)   // a reply body that decoded as JSON
    | RequestFailed           // the HTTP library raised (connection refused, timeout, ...)
    | BadJson                 // the reply body was not JSON

  /** The `MCPError` messages `send` raises, by their fixed prefix. */
  datatype Failure =
    | TransportFailure        // "Request failed: ..."
    | InvalidJson             // "Invalid JSON response: ..."
    | InvalidFormat           // "Invalid response format: ..." (a KeyError)
    | MissingResult           // "Invalid response: missing 'result' field"

  /**
   * How `send` ends: it returns the reply's `result`, raises `JSONRPCError`
   * (an `MCPError` carrying the error's code and message), raises a plain
   * `MCPError`, or lets another exception (a TypeError) escape.
   */
  datatype SendResult =
    | Returned(result: Json)
    | RpcError(code: Json, message: Json)
    | Failed(failure: Failure)
    | Uncaught

  /** The text of a `JSONRPCError`. */
  function ErrorText(code: Json, message: Json): (t: string)
    ensures code.Num? && message.Str? ==> t == "JSON-RPC error " + IntText(code.n) + ": " + message.s
  {
    "JSON-RPC error " + Show(code) + ": " + Show(message)
  }

  /**
   * The request `send` posts: `jsonrpc` "2.0", the method and the id, and a
   * `params` member exactly when the given params are truthy.
   */
  function BuildRequest(called: string, params: Json, id: int): (r: Json)
    ensures r.Obj? && {"jsonrpc", "method", "id"} <= r.fields.Keys
    ensures r.fields["jsonrpc"] == Str("2.0") && r.fields["method"] == Str(called) && r.fields["id"] == Num(id)
    ensures "params" in r.fields <==> Truthy(params)
    ensures "params" in r.fields ==> r.fields["params"] == params
    ensures r.fields.Keys <= {"jsonrpc", "method", "id", "params"}
  {
    var base := map["jsonrpc" := Str("2.0"), "method" := Str(called), "id" := Num(id)];
    Obj(if Truthy(params) then base["params" := params] else base)
  }

  /**
   * The classification of a decoded reply in `send`: an `error` member wins
   * over `result`; an error object without `code` or `message` is a KeyError
   * and so an `MCPError`; a reply with neither member is an `MCPError`.
   * A reply or error that is not an object is indexed by a string and raises
   * a TypeError that `send` does not catch.
   */
  function Classify(data: Json): (r: SendResult)
    ensures data.Obj? && "error" in data.fields && data.fields["error"].Obj? ==>
              var e := data.fields["error"].fields;
              r == (if "code" in e && "message" in e then RpcError(e["code"], e["message"]) else Failed(InvalidFormat))
    ensures data.Obj? && "error" !in data.fields ==>
              r == (if "result" in data.fields then Returned(data.fields["result"]) else Failed(MissingResult))
    ensures r.Returned? ==> data.Obj? && "error" !in data.fields && "result" in data.fields
    ensures !(data.Obj? || data.Arr? || data.Str?) ==> r == Uncaught
    ensures r != Failed(TransportFailure) && r != Failed(InvalidJson)
  {
    match PyIn("error", data)
    case None => Uncaught
    case Some(hasError) =>
      if hasError then
        if !data.Obj? then Uncaught
        else
          var error := data.fields["error"];
          if !error.Obj? then Uncaught
          else if "code" !in error.fields || "message" !in error.fields then Failed(InvalidFormat)
          else RpcError(error.fields["code"], error.fields["message"])
      else match PyIn("result", data)
        case None => Uncaught
        case Some(hasResult) =>
          if !hasResult then Failed(MissingResult)
          else if !data.Obj? then Uncaught
          else Returned(data.fields["result"])
  }

  /** What `send` ends with for what the transport delivered. */
  function SendOutcome(t: Transport): (r: SendResult)
    ensures t == RequestFailed ==> r == Failed(TransportFailure)
    ensures t == BadJson ==> r == Failed(InvalidJson)
    ensures r.RpcError? || r.Returned? ==> t.Delivered?
  {
    match t
    case Delivered(data) => Classify(data)
    case RequestFailed => Failed(TransportFailure)
    case BadJson => Failed(InvalidJson)
  }

  class McpClient {
    const serverUrl: string
    var requestId: int

    constructor(serverUrl: string)
      ensures this.serverUrl == serverUrl && requestId == 0
    {
      this.serverUrl := serverUrl;
      requestId := 0;
    }

    /**
     * `send`: the request id goes up by one before anything is posted, so it
     * does even when the exchange fails; the request carries the new id.
     */
    method Send(called: string, params: Json, post: Json -> Transport) returns (request: Json, r: SendResult)
      modifies this
      ensures requestId == old(requestId) + 1
      ensures request == BuildRequest(called, params, requestId)
      ensures r == SendOutcome(post(request))
    {
      requestId := requestId + 1;
      request := Obj(map["jsonrpc" := Str("2.0"), "method" := Str(called), "id" := Num(requestId)]);
      if Truthy(params) {
        request := Obj(request.fields["params" := params]);
      }
      r := SendOutcome(post(request));
    }
  }

  /** A reply carrying both members is reported as an error: the `result` is dropped. */
  lemma ErrorWinsOverResult(code: int, message: string, result: Json, id: Json)
    ensures Classify(Obj(map["jsonrpc" := Str("2.0"), "id" := id, "result" := result,
                             "error" := Obj(map["code" := Num(code), "message" := Str(message)])]))
            == RpcError(Num(code), Str(message))
  {
  }

  /**
   * Only a delivered object with an `error` member yields a `JSONRPCError`,
   * and only a delivered object with a `result` member and no `error` member
   * yields a result.
   */
  lemma ErrorOnlyFromErrorMember(t: Transport)
    ensures SendOutcome(t).RpcError? <==>
              t.Delivered? && t.data.Obj? && "error" in t.data.fields && t.data.fields["error"].Obj? &&
              "code" in t.data.fields["error"].fields && "message" in t.data.fields["error"].fields
    ensures SendOutcome(t).Returned? <==>
              t.Delivered? && t.data.Obj? && "error" !in t.data.fields && "result" in t.data.fields
  {
  }
}
