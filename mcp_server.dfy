/** The action server (grafana_mcp_server.py): the response record and its
    serialisation, the registry of named actions with its running flag, the
    rule that routes a POST path to an action, and the reply extraction of
    its model-service helper. Sockets, threads and the actions' own network
    calls are not modelled. */
module McpServer {
  import opened Wrappers
  import opened Json
  import opened Strings
  import opened GeminiReply
  import App

  // ---------------------------------------------------------------------------
  // ActionResponse
  // ---------------------------------------------------------------------------

  datatype ActionResponse = ActionResponse(status: Json, data: Json, error: Json)

  /** `ActionResponse.__init__`; Python's `None` is `JNull`. */
  function NewActionResponse(status: Json, data: Json, error: Json): (r: ActionResponse)
    ensures r.status == status && r.error == error
    ensures data != JNull ==> r.data == data
    ensures data == JNull ==> r.data == JObj(map[])
  {
    ActionResponse(status, if data == JNull then JObj(map[]) else data, error)
  }

  /** The dictionary `to_dict` produces: always the status, the data only when
      it is truthy, the error only when it is truthy. */
  function Serialized(r: ActionResponse): map<string, Json> {
    map["status" := r.status]
      + (if Truthy(r.data) then map["data" := r.data] else map[])
      + (if Truthy(r.error) then map["error" := r.error] else map[])
  }

  /** `ActionResponse.to_dict`, building the dictionary key by key. */
  method ToDict(r: ActionResponse) returns (result: map<string, Json>)
    ensures result == Serialized(r)
  {
    result := map["status" := r.status];
    if Truthy(r.data) {
      result := result["data" := r.data];
    }
    if Truthy(r.error) {
      result := result["error" := r.error];
    }
  }

  /** Which keys the dictionary has and what they hold. */
  lemma SerializedKeys(r: ActionResponse)
    ensures var d := Serialized(r);
            && "status" in d && d["status"] == r.status
            && ("data" in d <==> Truthy(r.data)) && ("data" in d ==> d["data"] == r.data)
            && ("error" in d <==> Truthy(r.error)) && ("error" in d ==> d["error"] == r.error)
            && d.Keys <= {"status", "data", "error"}
  {
  }

  /** A dictionary read back into a response the way the constructor would
      take it: absent data and error are `None`. */
  function Deserialize(d: map<string, Json>): ActionResponse
    requires "status" in d
  {
    NewActionResponse(d["status"], Get(d, "data", JNull), Get(d, "error", JNull))
  }

  /** A response whose falsy data is `{}` and whose falsy error is `None`. */
  predicate Canonical(r: ActionResponse) {
    (Truthy(r.data) || r.data == JObj(map[])) && (Truthy(r.error) || r.error == JNull)
  }

  /** Serialising loses nothing exactly for canonical responses: a falsy data
      other than `{}` or a falsy error other than `None` is dropped. */
  lemma SerializeRoundTrip(r: ActionResponse)
    ensures "status" in Serialized(r)
    ensures Deserialize(Serialized(r)) == r <==> Canonical(r)
  {
    SerializedKeys(r);
  }

  /** Every response the constructor builds from truthy-or-`None` data and
      error is canonical, so it survives serialisation. */
  lemma ConstructedIsCanonical(status: Json, data: Json, error: Json)
    requires Truthy(data) || data == JNull
    requires Truthy(error) || error == JNull
    ensures Canonical(NewActionResponse(status, data, error))
    ensures Deserialize(Serialized(NewActionResponse(status, data, error))) == NewActionResponse(status, data, error)
  {
    SerializeRoundTrip(NewActionResponse(status, data, error));
  }

  // ---------------------------------------------------------------------------
  // The action registry
  // ---------------------------------------------------------------------------

  /** What an action name is bound to: one of the four built-in bound methods,
      or a function registered from outside (told apart by an id). */
  datatype Handler =
    | GetDashboardHandler
    | ExecuteQueryHandler
    | AnalyzeCostPatternsHandler
    | GenerateRecommendationsHandler
    | ExternalHandler(id: nat)

  const BuiltinNames: set<string> :=
    {"get_dashboard", "execute_query", "analyze_cost_patterns", "generate_recommendations"}

  /** The registry a new server holds. */
  function BuiltinActions(): (m: map<string, Handler>)
    ensures m.Keys == BuiltinNames
  {
    map["get_dashboard" := GetDashboardHandler,
        "execute_query" := ExecuteQueryHandler,
        "analyze_cost_patterns" := AnalyzeCostPatternsHandler,
        "generate_recommendations" := GenerateRecommendationsHandler]
  }

  /** A new server has exactly four actions. */
  lemma BuiltinActionCount()
    ensures |BuiltinActions()| == 4
  {
    var m := BuiltinActions();
    assert m.Keys == {"get_dashboard"} + {"execute_query"} + {"analyze_cost_patterns"} + {"generate_recommendations"};
  }

  /** `MCPServer`. `hasServer` records whether `self.server` has been set. */
  class Server {
    const host: string
    const port: int
    var running: bool
    var hasServer: bool
    var actions: map<string, Handler>

    /** Between calls: a running server has an HTTP server, and the built-in
        names stay registered (registration only adds or rebinds). */
    ghost predicate Valid()
      reads this
    {
      (running ==> hasServer) && BuiltinNames <= actions.Keys
    }

    /** `MCPServer.__init__`: not running, no HTTP server, the four built-in
        actions registered one after another. */
    constructor (host: string, port: int)
      ensures Valid()
      ensures this.host == host && this.port == port
      ensures !running && !hasServer
      ensures actions == BuiltinActions()
    {
      this.host := host;
      this.port := port;
      running := false;
      hasServer := false;
      actions := map[];
      new;
      RegisterAction("get_dashboard", GetDashboardHandler);
      RegisterAction("execute_query", ExecuteQueryHandler);
      RegisterAction("analyze_cost_patterns", AnalyzeCostPatternsHandler);
      RegisterAction("generate_recommendations", GenerateRecommendationsHandler);
    }

    /** `register_action`: binds `name`, replacing any earlier binding, and
        leaves every other name as it was. */
    method RegisterAction(name: string, handler: Handler)
      modifies this`actions
      ensures actions == old(actions)[name := handler]
      ensures name in actions && actions[name] == handler
      ensures forall n :: n != name ==> (n in actions <==> n in old(actions))
      ensures forall n :: n != name && n in old(actions) ==> actions[n] == old(actions)[n]
      ensures old(Valid()) ==> Valid()
    {
      actions := actions[name := handler];
    }

    /** `start`. On an already running server nothing changes. Otherwise the
        flag is raised and the HTTP server is bound; `bindSucceeds` is whether
        that bind works. When it fails the flag drops again and the error is
        re-raised (`raised`). The blocking serve loop is not modelled. */
    method Start(bindSucceeds: bool) returns (raised: bool)
      requires Valid()
      modifies this`running, this`hasServer
      ensures Valid()
      ensures old(running) ==> !raised && running && hasServer == old(hasServer)
      ensures !old(running) && bindSucceeds ==> !raised && running && hasServer
      ensures !old(running) && !bindSucceeds ==> raised && !running && hasServer == old(hasServer)
    {
      raised := false;
      if running {
        return;
      }
      running := true;
      if bindSucceeds {
        hasServer := true;
      } else {
        running := false;
        raised := true;
      }
    }

    /** `stop`: clears the flag only when an HTTP server exists (the
        `shutdown` call itself is not modelled); the server stays set. */
    method Stop()
      requires Valid()
      modifies this`running
      ensures Valid()
      ensures hasServer ==> !running
      ensures !hasServer ==> running == old(running)
    {
      if hasServer {
        running := false;
      }
    }
  }

  // ---------------------------------------------------------------------------
  // Routing a POST request (`do_POST`)
  // ---------------------------------------------------------------------------

  /** The action name in a request path (the `path` component that
      `urlparse` returns): strip '/' at both ends, split on '/', and take the
      second segment when the first is "actions". */
  function RouteAction(path: string): (r: Option<string>)
    ensures r.Some? ==> "actions/" <= Strip(path, '/')
  {
    var p := Strip(path, '/');
    var parts := Split(p, '/');
    UnroutedPath(p, "");
    if |parts| < 2 || parts[0] != "actions" then None else Some(parts[1])
  }

  /** A path routes to `name` exactly when, once stripped of surrounding
      slashes, it is "actions/<name>" or begins with "actions/<name>/", with
      `name` free of '/'; later segments are ignored. */
  lemma RouteActionSpec(path: string, name: string)
    ensures RouteAction(path) == Some(name) <==>
              var p := Strip(path, '/');
              '/' !in name && (p == "actions/" + name || "actions/" + name + "/" <= p)
  {
    var p := Strip(path, '/');
    if "actions/" <= p {
      RoutedPath(p, name);
    } else {
      UnroutedPath(p, name);
    }
  }

  /** A path under "actions/": the second segment decides. */
  lemma RoutedPath(p: string, name: string)
    requires "actions/" <= p
    ensures var parts := Split(p, '/');
            (|parts| >= 2 && parts[0] == "actions" && parts[1] == name) <==>
            '/' !in name && (p == "actions/" + name || "actions/" + name + "/" <= p)
  {
    ActionsSplit(p);
    FirstPiece(p[8..], '/', name);
    ActionsPrefix(p, name);
  }

  /** A path under "actions/" splits into "actions" and the split of the rest. */
  lemma ActionsSplit(p: string)
    requires "actions/" <= p
    ensures Split(p, '/') == ["actions"] + Split(p[8..], '/')
  {
    assert p == "actions" + "/" + p[8..];
    assert '/' !in "actions";
    SplitCons("actions", '/', p[8..]);
  }

  /** Comparing a path under "actions/" with "actions/<name>" compares what follows. */
  lemma ActionsPrefix(p: string, name: string)
    requires "actions/" <= p
    ensures p == "actions/" + name <==> p[8..] == name
    ensures "actions/" + name + "/" <= p <==> name + "/" <= p[8..]
  {
    var rest := p[8..];
    assert p == "actions/" + rest;
    PrefixShift("actions/", rest, name);
    PrefixShift("actions/", rest, name + "/");
    assert "actions/" + name + "/" == "actions/" + (name + "/");
  }

  /** A common prefix neither adds nor removes equality or prefix order. */
  lemma PrefixShift(pre: string, rest: string, x: string)
    ensures pre + rest == pre + x <==> rest == x
    ensures pre + x <= pre + rest <==> x <= rest
  {
    if pre + rest == pre + x {
      assert rest == (pre + rest)[|pre|..];
    }
    if pre + x <= pre + rest {
      assert x == (pre + x)[|pre|..];
      assert (pre + rest)[|pre|..|pre| + |x|] == rest[..|x|];
    }
  }

  lemma UnroutedPath(p: string, name: string)
    ensures !("actions/" <= p) ==>
              var parts := Split(p, '/');
              !(|parts| >= 2 && parts[0] == "actions")
    ensures !("actions/" <= p) ==> !(p == "actions/" + name || "actions/" + name + "/" <= p)
  {
    if !("actions/" <= p) {
      SplitTail(p, '/');
      FirstPiece(p, '/', "actions");
    }
  }

  /** What `do_POST` does with a request. `SendError` is an HTTP error reply;
      `ExecutionError` is the 500 reply whose message carries Python's
      exception text from calling the action with non-dictionary parameters;
      `Invoke` calls the bound action with keyword arguments `params`. */
  datatype PostReply =
    | SendError(code: int, message: string)
    | ExecutionError(name: string)
    | Invoke(name: string, handler: Handler, params: map<string, Json>)

  /** `do_POST` up to calling the action. `path` is the parsed URL path,
      `body` the request body read by Content-Length, and `parsed` what
      `json.loads(body)` gives (`None` when it raises a decode error). */
  function HandlePost(path: string, body: string, parsed: Option<Json>, actions: map<string, Handler>): (r: PostReply)
    ensures RouteAction(path).None? ==> r == SendError(404, "Not Found")
    ensures RouteAction(path).Some? && body != "" && parsed.None? ==> r == SendError(400, "Invalid JSON")
    ensures RouteAction(path).Some? && RouteAction(path).value !in actions && (body == "" || parsed.Some?) ==>
              r == SendError(404, "Action not found: " + RouteAction(path).value)
    ensures r.Invoke? ==> RouteAction(path) == Some(r.name) && r.name in actions && r.handler == actions[r.name]
    ensures r.Invoke? && body == "" ==> r.params == map[]
    ensures r.Invoke? && body != "" ==> parsed == Some(JObj(r.params))
    ensures RouteAction(path).Some? && RouteAction(path).value in actions && body == "" ==>
              r == Invoke(RouteAction(path).value, actions[RouteAction(path).value], map[])
    ensures RouteAction(path).Some? && RouteAction(path).value in actions && body != "" && parsed.Some? && parsed.value.JObj? ==>
              r == Invoke(RouteAction(path).value, actions[RouteAction(path).value], parsed.value.fields)
    ensures RouteAction(path).Some? && RouteAction(path).value in actions && body != "" && parsed.Some? && !parsed.value.JObj? ==>
              r == ExecutionError(RouteAction(path).value)
  {
    match RouteAction(path)
    case None => SendError(404, "Not Found")
    case Some(name) =>
      if body != "" && parsed.None? then SendError(400, "Invalid JSON")
      else
        var params := if body == "" then JObj(map[]) else parsed.value;
        if name !in actions then SendError(404, "Action not found: " + name)
        else if params.JObj? then Invoke(name, actions[name], params.fields)
        else ExecutionError(name)
  }

  /** A registered name reached by "/actions/<name>" with an empty body is
      invoked with no arguments, whatever the registry otherwise holds. */
  lemma EmptyBodyInvokes(name: string, actions: map<string, Handler>)
    requires '/' !in name && name != "" && name in actions
    ensures HandlePost("/actions/" + name, "", None, actions) == Invoke(name, actions[name], map[])
  {
    StripActionPath(name);
    RouteActionSpec("/actions/" + name, name);
    assert RouteAction("/actions/" + name) == Some(name);
  }

  /** Stripping '/' from "/actions/<name>" leaves "actions/<name>". */
  lemma StripActionPath(name: string)
    requires '/' !in name && name != ""
    ensures Strip("/actions/" + name, '/') == "actions/" + name
  {
    var q := "actions/" + name;
    assert "/actions/" + name == ['/'] + q;
    assert q[0] == 'a' && q[|q| - 1] == name[|name| - 1];
    StripOneLeading(q, '/');
  }

  // ---------------------------------------------------------------------------
  // `_call_gemini_api`
  // ---------------------------------------------------------------------------

  /** `_call_gemini_api`: the reply text, or the text of the exception it
      raises. An unset or empty key raises before any request; request errors
      and reply-processing errors propagate. */
  function CallGemini(apiKey: Option<string>, post: PostOutcome): (r: Result<string, string>)
    ensures !KeyConfigured(apiKey) ==> r == Failure("Gemini API Key not configured")
    ensures KeyConfigured(apiKey) && post.PostFailed? ==> r == Failure(post.reason)
    ensures KeyConfigured(apiKey) && post.ProcessingFailed? ==> r == Failure(post.reason)
    ensures r.Success? <==> KeyConfigured(apiKey) && post.Received?
  {
    if !KeyConfigured(apiKey) then Failure("Gemini API Key not configured")
    else
      match post
      case PostFailed(e) => Failure(e)
      case ProcessingFailed(e) => Failure(e)
      case Received(reply) =>
        match FirstPart(reply)
        case None => Success("Error: Unexpected response format from Gemini API.")
        case Some(part) => Success(part.text.GetOr(""))
  }

  /** The server's helper and the web front end read a reply alike: same text
      when the first part has text, same message when the shape is wrong; they
      differ only when the first part has no text ("" here, an error message
      there). */
  lemma CallGeminiAgreesWithApp(apiKey: Option<string>, reply: Reply)
    requires KeyConfigured(apiKey)
    ensures var here := CallGemini(apiKey, Received(reply));
            var there := App.GetInsights(apiKey, Received(reply)).text;
            && here.Success?
            && (FirstPart(reply) != Some(Part(None)) ==> here.value == there)
            && (FirstPart(reply) == Some(Part(None)) ==> here.value == "" && there == App.NoInsightText)
  {
  }
}
