# Grafana cost analyzer — a verified model of its core rules

The repository is a small Python service that sits between Grafana and a
language-model API. It has four core files:

- a Grafana REST client (`grafana_api.py`);
- a Flask front end (`app.py`) that takes a dashboard URL, extracts the
  dashboard UID and asks the model service for insights;
- an "MCP" HTTP server (`grafana_mcp_server.py`) that keeps a registry of
  named actions and routes `POST /actions/<name>` to them;
- a GraphQL layer (`grafana_graphql.py`) that shapes dashboards and panels
  for queries and mutations.

This project models the deterministic rules of those four files in Dafny and
proves what they guarantee. The rules are: the cost-dashboard filter, the embed URL,
the client headers, the UID extraction, the key guard and reply reading, the
action response and its serialisation, the action registry and its server
flags, request routing, panel normalisation, panel building, the update
merge, and the not-found and failure branches of update and delete.

Modules, one per source file plus shared foundations:

| file | module | models |
|---|---|---|
| wrappers.dfy | Wrappers | `Option`, `Result` |
| json.dfy | Json | JSON values, Python truthiness, `dict.get` |
| strings.dfy | Strings | `str.lower` (ASCII), substring search, `split`, `strip` |
| grafana_api.dfy | GrafanaApi | grafana_api.py |
| gemini_reply.dfy | GeminiReply | the model service's reply shape, shared by app.py and grafana_mcp_server.py |
| app.dfy | App | app.py |
| mcp_server.dfy | McpServer | grafana_mcp_server.py |
| graphql.dfy | GrafanaGraphql | grafana_graphql.py |

Python's `None` is `JNull`. A network call becomes an input describing what
it returned or which exception it raised. The `MCPServer` object is a Dafny
class whose methods update its fields. The panel-building loop shared by
create and update is a method with a loop invariant. `to_dict` and the update
merge are methods proved against specification predicates.

`GrafanaAPI` defines no `create_dashboard`, `update_dashboard` or
`delete_dashboard` method. As the repository stands, those calls in the
mutation resolvers raise `AttributeError`, and each resolver answers with its
"Failed to ..." message. The model takes the outcome of each call as an
input, so it covers both that and a client that has those methods.

## Model

| member | source | states |
|---|---|---|
| GrafanaApi.NewClient | grafana_api.py:6-13 | the headers are exactly Authorization, Content-Type and Accept; both content headers are application/json; the bearer token in Authorization reads back as the service token |
| GrafanaApi.CostDashboards | grafana_api.py:47-57 | `get_cost_dashboards` on the search result: never longer than it, and everything kept is in it and qualifies; the full characterisation is in CostDashboardsMembers, CostDashboardsCount and CostDashboardsOrdered |
| GrafanaApi.CostDashboardsMembers | grafana_api.py:47-57 | a dashboard is in the filtered list exactly when it is in the search result and its lower-cased title contains a cost term or its tags hold one exactly |
| GrafanaApi.CostDashboardsCount | grafana_api.py:50-56 | the filter keeps every copy of a qualifying dashboard and no copy of any other (multiset count) |
| GrafanaApi.CostDashboardsOrdered | grafana_api.py:50-56 | the filtered list is a subsequence of the search result: order is kept |
| GrafanaApi.SubsequenceSkip | grafana_api.py:50-56 | a subsequence stays one when an element is put in front of the longer list |
| GrafanaApi.SubsequenceDrop | grafana_api.py:50-56 | dropping the first element of a subsequence leaves a subsequence |
| GrafanaApi.CostDashboardsIdempotent | grafana_api.py:50-56 | filtering an already filtered list changes nothing |
| GrafanaApi.MissingFields | grafana_api.py:52-55 | a missing title counts as "" and missing tags as [] |
| GrafanaApi.TitleIgnoresCase | grafana_api.py:52-53 | the title test is case-insensitive |
| GrafanaApi.CaseExamples | grafana_api.py:52-55 | "Cloud COST" as title qualifies; a lone tag "Cost" does not, because tags are compared exactly |
| GrafanaApi.EmbedUrl | grafana_api.py:59-61 | `generate_dashboard_embed_url`: when the dashboard path has no '?', parsing the URL gives back that path and the query; EmbedUrlParameters splits the query into its parameters |
| GrafanaApi.PathAndQuery | grafana_api.py:61 | the embed URL splits at its single '?' into path and query |
| GrafanaApi.SplitParameters | grafana_api.py:61 | the query of four '&'-free parameters plus kiosk splits into exactly those five items |
| GrafanaApi.NoAmpersand | grafana_api.py:61 | a `key=value` parameter whose key and value are '&'-free holds no '&' |
| GrafanaApi.EmbedUrlParameters | grafana_api.py:59-61 | the embed URL's path is `<base>/d/<uid>` and its query is orgId, theme, from, to, kiosk in that order, carrying the given values |
| GrafanaApi.DefaultQueryParameters | grafana_api.py:59-61 | the default query splits into the orgId parameter, theme=light, from=now-7d, to=now and kiosk |
| GrafanaApi.DefaultEmbedUrlParameters | grafana_api.py:59-61 | with the defaults the URL's query splits into exactly five items, in order: the orgId parameter (`orgId=<org id>`), theme=light, from=now-7d, to=now and kiosk |
| GrafanaApi.DefaultTexts | grafana_api.py:59 | the default theme, start and end texts, and that none holds '&' |
| GeminiReply.FirstPart | app.py:45-49 | a part is found only when the reply has a first candidate with content and parts, and it is one of those parts; FirstPartOfWellFormed and FirstPartMissing pin down which part and when |
| GeminiReply.FirstPartOfWellFormed | app.py:45-48 | a reply with a first candidate whose content has a first part yields that part, whatever follows it |
| GeminiReply.FirstPartMissing | app.py:45-49 | no first part exactly when candidates are missing or empty, or the first candidate's content is missing, or its parts are missing or empty |
| App.CaptureAt | app.py:69 | a group captured at a position is non-empty and '/'-free; CaptureAtSpec characterises the match at a position both ways |
| App.SearchUid | app.py:69-71 | a UID found by `re.search` and `group(1)` is non-empty and '/'-free; SearchUidLeftmost, SearchUidNone and SearchUidWellFormed say which one and when |
| App.CaptureAtSpec | app.py:69 | at a position, the pattern `/d/([^/]+)/` captures `uid` exactly when the position starts "/d/" + uid + "/" with uid non-empty and '/'-free |
| App.FirstCaptureFromSpec | app.py:69-71 | the search from a position returns the first position where the pattern matches, or reports that none does |
| App.SearchUidLeftmost | app.py:69-71 | the UID found is the capture of the leftmost match |
| App.SearchUidNone | app.py:69-74 | no UID is found exactly when the pattern matches nowhere |
| App.CaptureOccurs | app.py:69 | a match at a position means "/d/<uid>/" occurs in the URL there |
| App.SearchUidWellFormed | app.py:69-71 | a found UID is non-empty, has no '/', and the URL contains "/d/<uid>/" |
| App.NoClosingSlash | app.py:68-74 | "/d/abc" yields no UID; "/d/abc/" yields "abc" |
| App.AnalyzeUrl | app.py:64-74 | a missing or empty field gives the "URL is required" form; a non-empty URL in which a UID is found always redirects with that UID; a redirect happens only for such a URL; the "could not extract" form comes exactly when no UID is found |
| App.AnalyzeUrlRedirects | app.py:69-72 | every redirect carries a well-formed UID that occurs in the URL between "/d/" and "/" |
| App.GetInsights | app.py:15-54 | with no key, or an empty one, no request is sent and the key-not-configured text is returned; with a key a request is sent; a request error gives "Error calling Gemini API: " and its text, any other error while reading the reply gives the unexpected-error prefix and its text |
| App.InsightsFromReply | app.py:43-49 | the first part's text, the could-not-extract text when that part has none, the unexpected-format text when the shape is wrong |
| McpServer.NewActionResponse | grafana_mcp_server.py:30-33 | status and error are kept; data of None becomes {} and any other data is kept |
| McpServer.ToDict | grafana_mcp_server.py:35-47 | the dictionary equals the specification: status always, data and error only when truthy |
| McpServer.SerializedKeys | grafana_mcp_server.py:35-47 | status is always present; data and error are present exactly when truthy and hold the response's values; no other key |
| McpServer.SerializeRoundTrip | grafana_mcp_server.py:30-47 | reading the dictionary back gives the same response exactly when its falsy data is {} and its falsy error is None |
| McpServer.ConstructedIsCanonical | grafana_mcp_server.py:30-47 | a response built from truthy-or-None data and error survives serialisation |
| McpServer.BuiltinActions | grafana_mcp_server.py:62-66 | the built-in registry binds exactly the four built-in names |
| McpServer.BuiltinActionCount | grafana_mcp_server.py:62-66 | there are four built-in actions |
| McpServer.Server.constructor | grafana_mcp_server.py:52-66 | not running, no HTTP server, host and port kept, the four built-ins registered, invariant established |
| McpServer.Server.RegisterAction | grafana_mcp_server.py:68-71 | the name is bound to the handler, replacing an earlier binding; every other name is untouched; the invariant is kept |
| McpServer.Server.Start | grafana_mcp_server.py:73-153 | a running server is left alone; otherwise it runs with an HTTP server when the bind succeeds, and on failure the flag drops and the error is re-raised |
| McpServer.Server.Stop | grafana_mcp_server.py:155-160 | with an HTTP server the flag is cleared; without one nothing changes |
| McpServer.RouteAction | grafana_mcp_server.py:97-102 | only a path that, stripped of surrounding slashes, begins "actions/" routes; RouteActionSpec, RoutedPath and UnroutedPath say to which name |
| McpServer.RouteActionSpec | grafana_mcp_server.py:94-102 | a path routes to `name` exactly when, stripped of surrounding '/', it is "actions/<name>" or starts with "actions/<name>/", with `name` free of '/' |
| McpServer.RoutedPath | grafana_mcp_server.py:97-102 | the routing rule for paths beginning "actions/" |
| McpServer.UnroutedPath | grafana_mcp_server.py:97-100 | a path not beginning "actions/" routes nowhere |
| McpServer.HandlePost | grafana_mcp_server.py:91-136 | 404 "Not Found" for an unrouted path, 400 "Invalid JSON" for a non-empty body that does not parse, 404 "Action not found: <name>" for an unknown name; for a registered routed name the bound action is called with no arguments when the body is empty and with the body's object when it parses to one, and a body that parses to anything else gives the 500 execution error; an invocation happens only in those cases |
| McpServer.StripActionPath | grafana_mcp_server.py:97 | stripping '/' from "/actions/<name>" leaves "actions/<name>" when the name is non-empty and '/'-free |
| McpServer.EmptyBodyInvokes | grafana_mcp_server.py:97-121 | "/actions/<name>" with an empty body calls a registered action with no arguments |
| McpServer.CallGemini | grafana_mcp_server.py:267-303 | without a key it raises "Gemini API Key not configured" before any request; request and processing errors propagate; it succeeds exactly when a key is set and a reply arrives |
| McpServer.CallGeminiAgreesWithApp | grafana_mcp_server.py:295-299 | it reads a reply as the web front end does, except that a first part without text gives "" rather than an error message |
| Strings.FirstPiece | grafana_mcp_server.py:97-98 | the first piece of a split is `name` exactly when `name` has no separator and the string is `name` or starts with `name` and the separator |
| Strings.SplitTail | grafana_mcp_server.py:97-98 | a split has at least two pieces exactly when the separator occurs; the pieces after the first are the split of the rest |
| Strings.SplitJoin | grafana_mcp_server.py:97 | splitting a join of separator-free pieces gives back the pieces |
| Strings.JoinSplit | grafana_mcp_server.py:97 | joining the pieces of a split gives back the string |
| GrafanaGraphql.PanelList | grafana_graphql.py:37-45 | the loop over the stored panels succeeds only on a list or on a falsy value; on a list it succeeds exactly when every element is an object, and then visits each object in order; None, a boolean or a number raises |
| GrafanaGraphql.DatasourceOf | grafana_graphql.py:43 | a panel without a datasource shows ""; all three cases of the expression are stated by DatasourceCases |
| GrafanaGraphql.ResolvePanels | grafana_graphql.py:35-45 | a dashboard without a panels key resolves to no panels; ResolvePanelsShape and PanelDefaults state the views of a list of panel objects |
| GrafanaGraphql.ResolvePanelsShape | grafana_graphql.py:35-45 | a list of panel objects resolves to one panel view per object, in order; a dashboard without panels resolves to none |
| GrafanaGraphql.PanelDefaults | grafana_graphql.py:42-44 | a missing description reads as "" and missing targets as [] |
| GrafanaGraphql.DatasourceCases | grafana_graphql.py:43 | an object datasource shows its uid (default ""); a missing one shows ""; any other value is shown as is |
| GrafanaGraphql.BuildPanels | grafana_graphql.py:286-303 | the loop of the create resolver, repeated at lines 353-374 of the update resolver: one panel per input, in order, with ids 1..n, title and type always, and description, datasource and targets exactly when given non-empty |
| GrafanaGraphql.BuiltFromUnique | grafana_graphql.py:288-301 | the panel contract determines the panel dictionary completely |
| GrafanaGraphql.PanelsBuiltUnique | grafana_graphql.py:287-303 | the panel-list contract determines the list completely |
| GrafanaGraphql.PanelIdsSequential | grafana_graphql.py:287-289 | the built panels carry ids 1, 2, ..., n in input order |
| GrafanaGraphql.NewDashboardData | grafana_graphql.py:279-303 | the new dashboard has exactly title, tags (default []) and panels (built panels, or [] when none are given) |
| GrafanaGraphql.MergeUpdate | grafana_graphql.py:347-374 | title replaced; tags replaced whenever given, even by []; panels replaced only by a non-empty list; every other key kept |
| GrafanaGraphql.MergedFromUnique | grafana_graphql.py:347-374 | the merge contract determines the merged dashboard completely |
| GrafanaGraphql.EmptyInputLists | grafana_graphql.py:350-353 | an empty tag list clears the tags; an empty panel list leaves the stored panels |
| GrafanaGraphql.ResolveUpdate | grafana_graphql.py:333-402 | a failed fetch gives "Failed to update dashboard: <reason>"; a falsy body gives "Dashboard with UID <uid> not found"; the merged dashboard is sent exactly when the body and its dashboard are objects, and it satisfies the merge contract; a truthy body that is not an object, or whose dashboard is not one, raises inside the resolver |
| GrafanaGraphql.ResolveDelete | grafana_graphql.py:404-441 | delete is called exactly when the fetched body is a truthy object; a failed fetch or falsy body answers with its failure or not-found message; a truthy non-object body raises; when delete raises, the reply is "Failed to delete dashboard: <error>"; when it does not and meta and dashboard are objects, the reply is success with the uid, the meta's id and url and the dashboard's title, tags and panels (with the source's defaults), and otherwise the resolver raises; success happens only there |

## Left out

- `str.lower` is modelled for ASCII letters only; Unicode case mapping is not modelled.
- `urlparse` is a library call: the routing takes the already parsed `path` component as input.
- HTTP, sockets, threads and `serve_forever` are not modelled. `Start` ends where the server would begin serving. `start_mcp_server`'s connection retries and the `__main__` loops are left out.
- Interleavings of `start` and `stop` on different threads are not modelled: each method is atomic here.
- The bodies of the four built-in actions (`get_dashboard`, `execute_query`, `analyze_cost_patterns`, `generate_recommendations`) call Grafana, Databricks and the model service; only their registration is modelled, as `Handler` values.
- The `GET` health check and the 500 replies carrying Python exception texts are not modelled beyond the `ExecutionError` case.
- Reading the request body by Content-Length and `json.loads` are inputs to `HandlePost`.
- Prompt texts and `json.dumps(..., indent=2)` are not modelled; the prompt never affects the control flow.
- The reply shape's fields are `Option`s: JSON nulls inside the reply and non-string `text` values are not modelled.
- `GrafanaApi.SearchHit`: its `Option` fields stand for a missing `title` or `tags` key only. A hit whose `title` or `tags` is JSON null makes grafana_api.py:52/54 raise (at `.lower()` or at `in None`); that exception is not modelled.
- `GrafanaGraphql.PanelInput`: the input panel list is a `seq<PanelInput>`, so a null item in `graphene.List(PanelInput)`, which makes `panel_input.title` raise, is not modelled.
- `GrafanaGraphql.DashboardInput.tags`: the tag list is a `seq<string>`, so null items in `graphene.List(graphene.String)` are not modelled.
- JSON numbers are integers; floating point is not modelled.
- The text of Python's own exceptions (`AttributeError`, `TypeError`) is not modelled: `Faulted` and `DeleteFaulted` stand for them.
- `resolve_panels` is modelled on a dashboard dictionary. Iterating a non-empty dictionary or string of panels gives strings and raises; an empty one gives no panels; the model reports that as `None`.
- `GrafanaGraphql.ResolveUpdate` stops at the update call; the update, the re-fetch and the success response are Grafana calls and are left out.
- The create resolver is modelled up to the dashboard it sends (`NewDashboardData`); the create call, the re-fetch and the response are left out.
- The graphene schema, the search and cost-metric resolvers, config.py, mcp_client.py, databricks_client.py and the test scripts are not part of this model.
- `view_dashboard` in app.py is a Grafana fetch followed by `GetInsights`; it is not modelled separately.
