/**
 * How the client and the two mock servers fit together: the client's
 * requests pass the Flask server's request validation, and the client reads
 * the envelopes both servers build the way they are meant.
 */
module Interop {
  import opened JsonData
  import Client
  import FlaskMockServer
  import FastApiMockServer

  /** Every request the client builds is a valid JSON-RPC request for the Flask server. */
  lemma ClientRequestsAreValid(called: string, params: Json, id: int)
    ensures Client.BuildRequest(called, params, id).Obj?
    ensures FlaskMockServer.ValidateRequest(Client.BuildRequest(called, params, id).fields).None?
  {
  }

  /** An error envelope of either server reaches the caller as a JSON-RPC error with its code and message. */
  lemma ClientReadsErrors(id: Json, code: int, message: string, data: Json)
    ensures Client.Classify(FlaskMockServer.ErrorResponse(id, code, message, data)) == Client.RpcError(Num(code), Str(message))
    ensures Client.Classify(FastApiMockServer.ErrorEnvelope(id, code, message)) == Client.RpcError(Num(code), Str(message))
  {
  }

  /** A success envelope of either server reaches the caller as its result. */
  lemma ClientReadsResults(id: Json, result: Json)
    ensures Client.Classify(FlaskMockServer.SuccessResponse(id, result)) == Client.Returned(result)
    ensures Client.Classify(FastApiMockServer.Response(id, result)) == Client.Returned(result)
  {
  }
}
