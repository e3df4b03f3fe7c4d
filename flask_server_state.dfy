/**
 * The Flask mock server's mutable state: the per-tool call counter with its
 * one-minute window, and the three configuration flags set through the admin
 * endpoint. Each request is a step function from one state snapshot to the
 * next; the `ServerState` class applies those steps to its fields.
 */
module FlaskServerState {
  import opened JsonData
  import opened JsonRpc
  import opened FlaskMockServer

  /** Calls allowed per tool in one window, and the window length in seconds. */
  const RateLimit := 10
  const WindowSeconds: real := 60.0

  /**
   * The server state as values. The flags hold whatever JSON value the admin
   * endpoint stored; they start as `false`.
   */
  datatype Snapshot = Snapshot(
    callCount: map<string, int>,
    callResetTime: real,
    simulateErrors: Json,
    slowResponse: Json,
    forceInvalidJson: Json)

  /** The state a fresh server starts in at clock reading `now`. */
  function Initial(now: real): Snapshot
  {
    Snapshot(map[], now, Bool(false), Bool(false), Bool(false))
  }

  function CountOf(counts: map<string, int>, name: string): int
  {
    if name in counts then counts[name] else 0
  }

  /** The counter table a call at `now` starts from: emptied when more than a window has passed. */
  function WindowCounts(st: Snapshot, now: real): map<string, int>
  {
    if now - st.callResetTime > WindowSeconds then map[] else st.callCount
  }

  function WindowStart(st: Snapshot, now: real): real
  {
    if now - st.callResetTime > WindowSeconds then now else st.callResetTime
  }

  /**
   * The counter update of an admitted call to `name` at `now`: a new window
   * is opened when more than 60 seconds have passed, then the tool's count
   * goes up by one and no other count changes.
   */
  function Tick(st: Snapshot, name: string, now: real): (next: Snapshot)
    ensures next == st.(callCount := next.callCount, callResetTime := WindowStart(st, now))
    ensures name in next.callCount && next.callCount[name] == CountOf(WindowCounts(st, now), name) + 1
    ensures forall other :: other != name ==>
              (other in next.callCount <==> other in WindowCounts(st, now)) &&
              CountOf(next.callCount, other) == CountOf(WindowCounts(st, now), other)
  {
    var base := WindowCounts(st, now);
    st.(callCount := base[name := CountOf(base, name) + 1], callResetTime := WindowStart(st, now))
  }

  /**
   * `handle_tools_call` with the clock reading `now`: a call refused before
   * the counter leaves the state as it was; an admitted call ticks its tool's
   * counter and is refused with -32005 exactly when the new count exceeds 10.
   */
  function ToolsCallStep(st: Snapshot, id: Json, params: Json, now: real): (r: (Outcome, Snapshot))
    ensures ToolsCallGate(id, params).Rejected? ==> r == (ToolsCallGate(id, params).out, st)
    ensures ToolsCallGate(id, params).Admitted? ==>
              var name := ToolsCallGate(id, params).name;
              r.1 == Tick(st, name, now) && (OutcomeCode(r.0) == Some(-32005) <==> r.1.callCount[name] > RateLimit)
    ensures ToolsCallGate(id, params).Admitted? && r.1.callCount[ToolsCallGate(id, params).name] <= RateLimit ==>
              r.0 == ToolResult(id, ToolsCallGate(id, params).name, ToolsCallGate(id, params).arguments)
    ensures r.0.Answer? ==> IsResponse(r.0.envelope) && IdOf(r.0.envelope) == id
  {
    match ToolsCallGate(id, params)
    case Rejected(out) => (out, st)
    case Admitted(name, arguments) =>
      var next := Tick(st, name, now);
      if next.callCount[name] > RateLimit then (Error(id, -32005, "Rate limit exceeded"), next)
      else (ToolResult(id, name, arguments), next)
  }

  /**
   * `handle_rpc`: while the invalid-JSON flag is truthy the request is answered
   * with a plain-text 400 and the flag is cleared; otherwise the request is
   * routed, and only a `tools/call` touches the state.
   */
  function RpcStep(st: Snapshot, body: Body, now: real): (r: (HttpReply, Snapshot))
    ensures Truthy(st.forceInvalidJson) ==>
              r == (TextReply(400, "Not a valid JSON"), st.(forceInvalidJson := Bool(false)))
    ensures !Truthy(st.forceInvalidJson) && Route(body).Finished? ==> r == (Route(body).reply, st)
    ensures !Truthy(st.forceInvalidJson) && Route(body).ToolsCall? ==>
              var step := ToolsCallStep(st, Route(body).id, Route(body).params, now);
              r == (ReplyOf(step.0), step.1)
    ensures r.1.simulateErrors == st.simulateErrors && r.1.slowResponse == st.slowResponse
    ensures !Truthy(r.1.forceInvalidJson) || r.1.forceInvalidJson == st.forceInvalidJson
    ensures r.1.callCount != st.callCount || r.1.callResetTime != st.callResetTime ==>
              !Truthy(st.forceInvalidJson) && Route(body).ToolsCall?
  {
    if Truthy(st.forceInvalidJson) then (TextReply(400, "Not a valid JSON"), st.(forceInvalidJson := Bool(false)))
    else match Route(body)
      case Finished(reply) => (reply, st)
      case ToolsCall(id, params) =>
        var (out, next) := ToolsCallStep(st, id, params, now);
        (ReplyOf(out), next)
  }

  const ConfigKeys: seq<string> := ["simulate_errors", "slow_response", "force_invalid_json"]

  function ConfigReply(st: Snapshot): HttpReply
  {
    JsonReply(200, Obj(map[
      "status" := Str("ok"),
      "config" := Obj(map[
        "simulate_errors" := st.simulateErrors,
        "slow_response" := st.slowResponse,
        "force_invalid_json" := st.forceInvalidJson])]))
  }

  /**
   * `configure_server`: a JSON object sets exactly the flags it names, to the
   * values it gives, and the reply reports all three flags. A body that is not
   * JSON is refused by the framework with 400; a JSON value that is not an
   * object raises (500) as soon as one of the three names is `in` it or `in`
   * refuses it, and otherwise changes nothing.
   */
  function ConfigureStep(st: Snapshot, config: Body): (r: (HttpReply, Snapshot))
    ensures config.Unparsable? ==> r == (ErrorPage(400), st)
    ensures config.Parsed? && config.value.Obj? ==>
              var f := config.value.fields;
              && r.1 == st.(simulateErrors := Get(f, "simulate_errors", st.simulateErrors),
                            slowResponse := Get(f, "slow_response", st.slowResponse),
                            forceInvalidJson := Get(f, "force_invalid_json", st.forceInvalidJson))
              && r.0 == ConfigReply(r.1)
    ensures config.Parsed? && !config.value.Obj? ==>
              r.1 == st &&
              (r.0 == ErrorPage(500) <==> exists k :: k in ConfigKeys && PyIn(k, config.value) != Some(false)) &&
              (r.0 != ErrorPage(500) ==> r.0 == ConfigReply(st))
    ensures r.1.callCount == st.callCount && r.1.callResetTime == st.callResetTime
  {
    match config
    case Unparsable => (ErrorPage(400), st)
    case Parsed(c) =>
      if c.Obj? then
        var next := st.(simulateErrors := Get(c.fields, "simulate_errors", st.simulateErrors),
                        slowResponse := Get(c.fields, "slow_response", st.slowResponse),
                        forceInvalidJson := Get(c.fields, "force_invalid_json", st.forceInvalidJson));
        (ConfigReply(next), next)
      else if PyIn("simulate_errors", c) != Some(false) || PyIn("slow_response", c) != Some(false)
              || PyIn("force_invalid_json", c) != Some(false) then
        (ErrorPage(500), st)
      else (ConfigReply(st), st)
  }

  /** Within one window, an admitted call to a tool that already has 10 calls is refused. */
  lemma EleventhCallRefused(st: Snapshot, id: Json, params: Json, now: real)
    requires ToolsCallGate(id, params).Admitted?
    requires now - st.callResetTime <= WindowSeconds
    requires CountOf(st.callCount, ToolsCallGate(id, params).name) >= RateLimit
    ensures OutcomeCode(ToolsCallStep(st, id, params, now).0) == Some(-32005)
  {
  }

  /** Once more than a window has passed, an admitted call is never refused by the counter. */
  lemma NewWindowAdmits(st: Snapshot, id: Json, params: Json, now: real)
    requires ToolsCallGate(id, params).Admitted?
    requires now - st.callResetTime > WindowSeconds
    ensures var r := ToolsCallStep(st, id, params, now);
      r.1.callCount == map[ToolsCallGate(id, params).name := 1] && r.1.callResetTime == now &&
      OutcomeCode(r.0) != Some(-32005)
  {
  }

  /**
   * The invalid-JSON flag acts once: after the admin endpoint sets it to
   * true, the next request gets the plain-text 400 and the one after it is
   * handled normally.
   */
  lemma ForceInvalidJsonIsOneShot(st: Snapshot, first: Body, second: Body, now: real)
    ensures var armed := ConfigureStep(st, Parsed(Obj(map["force_invalid_json" := Bool(true)]))).1;
      var (reply1, st1) := RpcStep(armed, first, now);
      && reply1 == TextReply(400, "Not a valid JSON")
      && !Truthy(st1.forceInvalidJson)
      && st1 == armed.(forceInvalidJson := Bool(false))
      && (Route(second).Finished? ==> RpcStep(st1, second, now).0 == Route(second).reply)
  {
  }

  /** A run of requests, each a body and the clock reading when it arrives. */
  function RunRpc(st: Snapshot, requests: seq<(Body, real)>): (r: Snapshot)
    decreases |requests|
  {
    if requests == [] then st
    else RunRpc(RpcStep(st, requests[0].0, requests[0].1).1, requests[1..])
  }

  /**
   * No sequence of JSON-RPC requests changes the `simulate_errors` or
   * `slow_response` flags, and none sets the invalid-JSON flag: only the
   * admin endpoint does.
   */
  lemma {:induction false} RequestsKeepFlags(st: Snapshot, requests: seq<(Body, real)>)
    ensures var r := RunRpc(st, requests);
      r.simulateErrors == st.simulateErrors && r.slowResponse == st.slowResponse &&
      (!Truthy(r.forceInvalidJson) || r.forceInvalidJson == st.forceInvalidJson)
    decreases |requests|
  {
    if requests != [] {
      var next := RpcStep(st, requests[0].0, requests[0].1).1;
      RequestsKeepFlags(next, requests[1..]);
    }
  }

  /** The server process: the snapshot's fields, updated in place by each request. */
  class ServerState {
    var callCount: map<string, int>
    var callResetTime: real
    var simulateErrors: Json
    var slowResponse: Json
    var forceInvalidJson: Json

    function State(): Snapshot
      reads this
    {
      Snapshot(callCount, callResetTime, simulateErrors, slowResponse, forceInvalidJson)
    }

    constructor(now: real)
      ensures State() == Initial(now)
    {
      callCount := map[];
      callResetTime := now;
      simulateErrors := Bool(false);
      slowResponse := Bool(false);
      forceInvalidJson := Bool(false);
    }

    /** `handle_tools_call` at clock reading `now`. */
    method TickFields(name: string, now: real)
      modifies this
      ensures State() == Tick(old(State()), name, now)
    {
      if now - callResetTime > WindowSeconds {
        callCount := map[];
        callResetTime := now;
      }
      callCount := callCount[name := CountOf(callCount, name) + 1];
    }

    method HandleToolsCall(id: Json, params: Json, now: real) returns (out: Outcome)
      modifies this
      ensures (out, State()) == ToolsCallStep(old(State()), id, params, now)
    {
      var gate := ToolsCallGate(id, params);
      if gate.Rejected? {
        out := gate.out;
        return;
      }
      TickFields(gate.name, now);
      if callCount[gate.name] > RateLimit {
        out := Error(id, -32005, "Rate limit exceeded");
      } else {
        out := ToolResult(id, gate.name, gate.arguments);
      }
    }

    /** `handle_rpc` for a request body arriving at clock reading `now`. */
    method HandleRpc(body: Body, now: real) returns (reply: HttpReply)
      modifies this
      ensures (reply, State()) == RpcStep(old(State()), body, now)
    {
      if Truthy(forceInvalidJson) {
        forceInvalidJson := Bool(false);
        return TextReply(400, "Not a valid JSON");
      }
      match Route(body)
      case Finished(r) =>
        reply := r;
      case ToolsCall(id, params) =>
        var out := HandleToolsCall(id, params, now);
        reply := ReplyOf(out);
    }

    /** `configure_server` for a request body. */
    method Configure(config: Body) returns (reply: HttpReply)
      modifies this
      ensures (reply, State()) == ConfigureStep(old(State()), config)
    {
      match config
      case Unparsable =>
        reply := ErrorPage(400);
      case Parsed(c) =>
        if c.Obj? {
          if "simulate_errors" in c.fields {
            simulateErrors := c.fields["simulate_errors"];
          }
          if "slow_response" in c.fields {
            slowResponse := c.fields["slow_response"];
          }
          if "force_invalid_json" in c.fields {
            forceInvalidJson := c.fields["force_invalid_json"];
          }
          reply := ConfigReply(State());
        } else if PyIn("simulate_errors", c) != Some(false) || PyIn("slow_response", c) != Some(false)
                  || PyIn("force_invalid_json", c) != Some(false) {
          reply := ErrorPage(500);
        } else {
          reply := ConfigReply(State());
        }
    }
  }
}
