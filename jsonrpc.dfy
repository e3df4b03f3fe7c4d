/**
 * Facts about JSON-RPC 2.0 envelopes (section 5 of the JSON-RPC 2.0
 * specification): the shape every response must have, and how to read its
 * error code or its result.
 */
module JsonRpc {
  import opened JsonData

  /** A response object: `jsonrpc` is "2.0", an `id` is present, and exactly one of `result` and `error`. */
  predicate IsResponse(r: Json)
  {
    && r.Obj?
    && "jsonrpc" in r.fields && r.fields["jsonrpc"] == Str("2.0")
    && "id" in r.fields
    && (("result" in r.fields) != ("error" in r.fields))
  }

  predicate IsSuccess(r: Json)
  {
    IsResponse(r) && "result" in r.fields
  }

  /** The integer `error.code` of an error response, if there is one. */
  function ErrorCode(r: Json): Option<int>
  {
    if r.Obj? && "error" in r.fields && r.fields["error"].Obj? && "code" in r.fields["error"].fields
       && r.fields["error"].fields["code"].Num?
    then Some(r.fields["error"].fields["code"].n)
    else None
  }

  /** The error code a handler outcome answers with, if it answers with an error. */
  function OutcomeCode(out: Outcome): Option<int>
  {
    if out.Answer? then ErrorCode(out.envelope) else None
  }

  function IdOf(r: Json): Json
  {
    if r.Obj? && "id" in r.fields then r.fields["id"] else Null
  }

  function ResultOf(r: Json): Json
  {
    if r.Obj? && "result" in r.fields then r.fields["result"] else Null
  }

  /** The `error.message` of an error response, or "" when there is none. */
  function MessageOf(r: Json): string
  {
    if r.Obj? && "error" in r.fields && r.fields["error"].Obj? && "message" in r.fields["error"].fields
       && r.fields["error"].fields["message"].Str?
    then r.fields["error"].fields["message"].s
    else ""
  }
}
