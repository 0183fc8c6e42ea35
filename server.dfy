/** The HTTP gateway (internal/api/server.go): the route table, the API-key
    gate in front of every /v1 route, and the mapping of handler results to
    responses. The request handlers behind the routes are abstract: one
    function value stands for all of them. */
module ApiServer {
  import opened Base

  /** strings.TrimPrefix: drop one leading `prefix` when present. */
  function TrimPrefix(s: string, prefix: string): (r: string)
    ensures HasPrefix(s, prefix) ==> prefix + r == s
    ensures !HasPrefix(s, prefix) ==> r == s
  {
    if HasPrefix(s, prefix) then s[|prefix|..] else s
  }

  const BearerPrefix: string := "Bearer "

  /** The gate's verdict on one request. */
  datatype Gate = Accept | Reject(message: string)

  /** A missing header is refused first; otherwise the token, which is the
      header with at most one "Bearer " removed, must equal the key. */
  function Authorize(header: string, apiKey: string): (g: Gate)
    ensures header == "" ==> g == Reject("Missing Authorization header")
    ensures header != "" && g.Reject? ==> g == Reject("Invalid API key")
    ensures g.Accept? <==>
      header != "" &&
      (header == BearerPrefix + apiKey || (!HasPrefix(header, BearerPrefix) && header == apiKey))
  {
    if header == "" then Reject("Missing Authorization header")
    else
      var token := TrimPrefix(header, BearerPrefix);
      if token != apiKey then Reject("Invalid API key") else Accept
  }

  /** The bare key, sent without "Bearer ", is accepted as well, because
      removing a prefix that is absent leaves the header as it is. */
  lemma BareKeyAccepted(apiKey: string)
    requires apiKey != "" && !HasPrefix(apiKey, BearerPrefix)
    ensures Authorize(apiKey, apiKey) == Accept
  {
  }

  /** Only one "Bearer " is removed: a doubled prefix is refused unless the
      key itself starts with "Bearer ". */
  lemma DoubledPrefixRefused(apiKey: string)
    requires !HasPrefix(apiKey, BearerPrefix)
    ensures Authorize(BearerPrefix + BearerPrefix + apiKey, apiKey) == Reject("Invalid API key")
  {
    var header := BearerPrefix + BearerPrefix + apiKey;
    assert HasPrefix(header, BearerPrefix);
    assert header[|BearerPrefix|..] == BearerPrefix + apiKey;
    assert HasPrefix(BearerPrefix + apiKey, BearerPrefix);
  }

  datatype Method = GET | POST

  /** The handlers the routes lead to. */
  datatype Route = Health | Models | ChatCompletions | Agents | AgentChat(agentId: string) | Announce

  const AgentsPrefix: string := "/v1/agents/"
  const CompletionsSuffix: string := "/chat/completions"

  /** The `:agent_id` of "/v1/agents/:agent_id/chat/completions": one
      non-empty path segment. */
  function AgentChatId(path: string): (id: Option<string>)
    ensures id.Some? ==> path == AgentsPrefix + id.value + CompletionsSuffix && id.value != [] && '/' !in id.value
  {
    if |path| > |AgentsPrefix| + |CompletionsSuffix| && HasPrefix(path, AgentsPrefix) && HasSuffix(path, CompletionsSuffix) then
      var middle := path[|AgentsPrefix|..|path| - |CompletionsSuffix|];
      if '/' in middle then None
      else
        assert path == path[..|AgentsPrefix|] + middle + path[|path| - |CompletionsSuffix|..];
        Some(middle)
    else None
  }

  /** Every single segment is recognised as an agent identity. */
  lemma AgentChatIdRoundTrip(id: string)
    requires id != [] && '/' !in id
    ensures AgentChatId(AgentsPrefix + id + CompletionsSuffix) == Some(id)
  {
    var path := AgentsPrefix + id + CompletionsSuffix;
    assert path[..|AgentsPrefix|] == AgentsPrefix;
    assert path[|path| - |CompletionsSuffix|..] == CompletionsSuffix;
    assert path[|AgentsPrefix|..|path| - |CompletionsSuffix|] == id;
  }

  /** The route table as the code registers it: /health, then the /v1
      group with models, chat completions, agents and agent chat. */
  function MatchRouteAsWritten(m: Method, path: string): (r: Option<Route>)
    ensures r != Some(Announce)
    ensures r.Some? ==> (r.value == Health <==> !HasPrefix(path, "/v1/"))
  {
    if m == GET && path == "/health" then
      assert path[1] != "/v1/"[1];
      Some(Health)
    else if m == GET && path == "/v1/models" then Some(Models)
    else if m == POST && path == "/v1/chat/completions" then Some(ChatCompletions)
    else if m == GET && path == "/v1/agents" then Some(Agents)
    else if m == POST && AgentChatId(path).Some? then
      assert HasPrefix(path, AgentsPrefix);
      Some(AgentChat(AgentChatId(path).value))
    else None
  }

  /** The four /v1 routes the code registers are all reachable: models,
      chat completions, the agent list, and chat with any one agent. */
  lemma RegisteredRoutes(id: string)
    requires id != [] && '/' !in id
    ensures MatchRouteAsWritten(GET, "/v1/models") == Some(Models)
    ensures MatchRouteAsWritten(POST, "/v1/chat/completions") == Some(ChatCompletions)
    ensures MatchRouteAsWritten(GET, "/v1/agents") == Some(Agents)
    ensures MatchRouteAsWritten(POST, AgentsPrefix + id + CompletionsSuffix) == Some(AgentChat(id))
  {
    AgentChatIdRoundTrip(id);
  }

  /** The route table with the announce route the command-line client and
      the agent's announce handler expect. */
  function MatchRoute(m: Method, path: string): (r: Option<Route>)
    ensures r.Some? ==> (r.value == Health <==> !HasPrefix(path, "/v1/"))
    ensures r == Some(Announce) <==> m == POST && path == "/v1/announce"
    ensures !(m == POST && path == "/v1/announce") ==> r == MatchRouteAsWritten(m, path)
  {
    if m == POST && path == "/v1/announce" then Some(Announce) else MatchRouteAsWritten(m, path)
  }

  /** The announce request the command-line client sends finds no route:
      the gateway answers 404 before any gate or handler runs. */
  lemma AnnounceUnroutedAsWritten()
    ensures MatchRouteAsWritten(POST, "/v1/announce").None?
  {
    assert "/v1/announce"[5] != AgentsPrefix[5];
  }

  /** The request as the gateway sees it. `body` is the decoded JSON body,
      None when it does not decode. */
  datatype Request = Request(m: Method, path: string, authorization: string, body: Option<Bytes>)

  datatype Response =
    | NotFound
    | HealthOk(time: int)
    | Okay(body: Bytes)
    | ErrorResponse(status: int, message: string, errorType: string)

  /** The routes whose handler reads a JSON request body. */
  predicate BindsBody(r: Route) {
    r.ChatCompletions? || r.AgentChat? || r.Announce?
  }

  /** The handler error shape: the status, the handler's message, and the
      "api_error" type. */
  function ApiError(status: int, message: string): (resp: Response)
    ensures resp.ErrorResponse? && resp.status == status && resp.message == message && resp.errorType == "api_error"
  {
    ErrorResponse(status, message, "api_error")
  }

  /** Which route table the gateway runs: the one the code registers, or
      that one with the announce route added. */
  datatype RouteTable = AsWritten | WithAnnounce

  function Lookup(table: RouteTable, m: Method, path: string): Option<Route>
  {
    match table
    case AsWritten => MatchRouteAsWritten(m, path)
    case WithAnnounce => MatchRoute(m, path)
  }

  /** Serve one request with the given route table. `now` is the clock in
      Unix seconds; `handler` stands for the request handler, given the
      route and the decoded body (empty for routes that read none). */
  function Serve(table: RouteTable, req: Request, apiKey: string, now: int,
                 handler: (Route, Bytes) -> Result<Bytes, string>): (resp: Response)
    ensures Lookup(table, req.m, req.path).None? ==> resp == NotFound
    ensures Lookup(table, req.m, req.path) == Some(Health) ==> resp == HealthOk(now)
    ensures resp.Okay? || resp.ErrorResponse? ==> Lookup(table, req.m, req.path).Some? && HasPrefix(req.path, "/v1/")
    ensures resp.Okay? ==> Authorize(req.authorization, apiKey) == Accept
    ensures resp.ErrorResponse? ==>
      (resp.status == 401 <==> Authorize(req.authorization, apiKey).Reject?) &&
      (resp.status == 401 ==> resp.errorType == "invalid_request_error" &&
                              resp.message == Authorize(req.authorization, apiKey).message) &&
      (resp.status != 401 ==> resp.errorType == "api_error" && (resp.status == 400 || resp.status == 500))
    ensures resp.ErrorResponse? && resp.status == 400 ==> resp.message == "Invalid request body" && req.body.None?
    ensures Lookup(table, req.m, req.path).Some? && Lookup(table, req.m, req.path).value != Health &&
            Authorize(req.authorization, apiKey).Reject? ==>
      resp == ErrorResponse(401, Authorize(req.authorization, apiKey).message, "invalid_request_error")
    ensures Lookup(table, req.m, req.path).Some? && Lookup(table, req.m, req.path).value != Health &&
            Authorize(req.authorization, apiKey) == Accept ==>
      var route := Lookup(table, req.m, req.path).value;
      if BindsBody(route) && req.body.None? then resp == ApiError(400, "Invalid request body")
      else
        var input := if BindsBody(route) then req.body.value else [];
        match handler(route, input)
        case Success(out) => resp == Okay(out)
        case Failure(e) => resp == ApiError(500, e)
  {
    match Lookup(table, req.m, req.path)
    case None => NotFound
    case Some(route) =>
      if route == Health then HealthOk(now)
      else
        match Authorize(req.authorization, apiKey)
        case Reject(message) => ErrorResponse(401, message, "invalid_request_error")
        case Accept =>
          if BindsBody(route) && req.body.None? then ApiError(400, "Invalid request body")
          else
            var input := if BindsBody(route) then req.body.value else [];
            match handler(route, input)
            case Failure(e) => ApiError(500, e)
            case Success(out) => Okay(out)
  }

  /** A refused request never reaches a handler: its response is the same
      whichever handler stands behind the gate. */
  lemma RejectedIndependentOfHandler(table: RouteTable, req: Request, apiKey: string, now: int,
                                     h1: (Route, Bytes) -> Result<Bytes, string>, h2: (Route, Bytes) -> Result<Bytes, string>)
    requires Authorize(req.authorization, apiKey).Reject?
    ensures Serve(table, req, apiKey, now, h1) == Serve(table, req, apiKey, now, h2)
  {
  }

  /** The health check answers whatever the header says. */
  lemma HealthUnguarded(table: RouteTable, header: string, apiKey: string, now: int,
                        handler: (Route, Bytes) -> Result<Bytes, string>)
    ensures Serve(table, Request(GET, "/health", header, None), apiKey, now, handler) == HealthOk(now)
  {
  }

  /** The gateway as written answers the command-line announce request,
      correctly authorized, with 404, whatever the handler would do. */
  lemma AnnounceNotFoundAsWritten(apiKey: string, body: Bytes, now: int, handler: (Route, Bytes) -> Result<Bytes, string>)
    ensures Serve(AsWritten, Request(POST, "/v1/announce", BearerPrefix + apiKey, Some(body)), apiKey, now, handler) == NotFound
  {
    AnnounceUnroutedAsWritten();
  }

  /** The command-line announce request, with the right key, reaches the
      announce handler with its body once the route exists. */
  lemma AnnounceServed(apiKey: string, body: Bytes, now: int, handler: (Route, Bytes) -> Result<Bytes, string>)
    ensures var resp := Serve(WithAnnounce, Request(POST, "/v1/announce", BearerPrefix + apiKey, Some(body)), apiKey, now, handler);
      match handler(Announce, body)
      case Success(out) => resp == Okay(out)
      case Failure(e) => resp == ErrorResponse(500, e, "api_error")
  {
    assert TrimPrefix(BearerPrefix + apiKey, BearerPrefix) == apiKey by {
      assert (BearerPrefix + apiKey)[..|BearerPrefix|] == BearerPrefix;
    }
  }
}
