/** The GraphQL layer over Grafana (grafana_graphql.py): how a stored
    dashboard's panels are normalised for the `panels` field, how the create
    and update mutations shape the dashboard they send, and the failure
    branches of update and delete. The graphene schema and the Grafana calls
    themselves are not modelled; what a call returns is an input. */
module GrafanaGraphql {
  import opened Wrappers
  import opened Json

  // ---------------------------------------------------------------------------
  // `Dashboard.resolve_panels`
  // ---------------------------------------------------------------------------

  /** The `Panel` object the resolver builds. */
  datatype PanelView = PanelView(id: Json, title: Json, panelType: Json, description: Json, datasource: Json, targets: Json)

  /** The datasource shown for a stored panel: the datasource's `uid` (default
      "") when it is an object, otherwise the raw value (default ""). */
  function DatasourceOf(panel: map<string, Json>): (r: Json)
    ensures "datasource" !in panel ==> r == JStr("")
  {
    match Get(panel, "datasource", JNull)
    case JObj(ds) => Get(ds, "uid", JStr(""))
    case _ => Get(panel, "datasource", JStr(""))
  }

  /** One element of the resolver's comprehension. */
  function PanelViewOf(panel: map<string, Json>): PanelView {
    PanelView(Get(panel, "id", JNull), Get(panel, "title", JNull), Get(panel, "type", JNull),
              Get(panel, "description", JStr("")), DatasourceOf(panel), Get(panel, "targets", JArr([])))
  }

  /** The panels a `for` loop over the stored value visits, or `None` when the
      loop raises: the value is not iterable, or an element has no `.get`
      (iterating a non-empty dict or string yields strings). */
  function PanelList(v: Json): (r: Option<seq<map<string, Json>>>)
    ensures r.Some? ==> v.JArr? || !Truthy(v)
    ensures r.Some? && v.JArr? ==>
              |r.value| == |v.items| && forall i :: 0 <= i < |v.items| ==> v.items[i] == JObj(r.value[i])
    ensures v.JArr? && (exists i :: 0 <= i < |v.items| && !v.items[i].JObj?) ==> r.None?
    ensures v.JNull? || v.JBool? || v.JNum? ==> r.None?
    ensures v.JArr? && (forall i :: 0 <= i < |v.items| ==> v.items[i].JObj?) ==>
              r.Some? && |r.value| == |v.items|
  {
    match v
    case JArr(items) =>
      if forall i :: 0 <= i < |items| ==> items[i].JObj? then
        Some(seq(|items|, i requires 0 <= i < |items| && items[i].JObj? => items[i].fields))
      else None
    case JObj(fields) => if fields == map[] then Some([]) else None
    case JStr(s) => if s == "" then Some([]) else None
    case _ => None
  }

  /** `resolve_panels` on the stored dashboard; `None` when it raises. */
  function ResolvePanels(dashboard: map<string, Json>): (r: Option<seq<PanelView>>)
    ensures "panels" !in dashboard ==> r == Some([])
  {
    match PanelList(Get(dashboard, "panels", JArr([])))
    case None => None
    case Some(ps) =>
      var views := seq(|ps|, i requires 0 <= i < |ps| => PanelViewOf(ps[i]));
      assert |views| == |ps|;
      Some(views)
  }

  /** A list of panel objects resolves to one view per panel, in order; a
      dashboard without panels resolves to no views. */
  lemma ResolvePanelsShape(dashboard: map<string, Json>, items: seq<Json>)
    requires Get(dashboard, "panels", JArr([])) == JArr(items)
    requires forall i :: 0 <= i < |items| ==> items[i].JObj?
    ensures var r := ResolvePanels(dashboard);
            && r.Some? && |r.value| == |items|
            && forall i :: 0 <= i < |items| ==> r.value[i] == PanelViewOf(items[i].fields)
  {
  }

  /** A missing description reads as "" and missing targets as []. */
  lemma PanelDefaults(panel: map<string, Json>)
    ensures "description" !in panel ==> PanelViewOf(panel).description == JStr("")
    ensures "targets" !in panel ==> PanelViewOf(panel).targets == JArr([])
  {
  }

  /** The four datasource cases: object with a uid, object without one, no
      datasource, and any other value (a string, or an explicit null). */
  lemma DatasourceCases(panel: map<string, Json>)
    ensures "datasource" in panel && panel["datasource"].JObj? ==>
              DatasourceOf(panel) == Get(panel["datasource"].fields, "uid", JStr(""))
    ensures "datasource" !in panel ==> DatasourceOf(panel) == JStr("")
    ensures "datasource" in panel && !panel["datasource"].JObj? ==> DatasourceOf(panel) == panel["datasource"]
  {
  }

  // ---------------------------------------------------------------------------
  // Building panels for create and update
  // ---------------------------------------------------------------------------

  /** `PanelInput`: title and type are required; the rest may be absent. */
  datatype PanelInput = PanelInput(
    title: string, panelType: string,
    description: Option<string>, datasource: Option<string>, targets: Option<seq<Json>>)

  /** `DashboardInput`. */
  datatype DashboardInput = DashboardInput(title: string, tags: Option<seq<string>>, panels: Option<seq<PanelInput>>)

  /** A present, non-empty string: what `if panel_input.description:` tests. */
  predicate GivenText(s: Option<string>) {
    s.Some? && s.value != ""
  }

  /** A present, non-empty list: what `if input.panels:` tests. */
  predicate GivenList<T>(s: Option<seq<T>>) {
    s.Some? && s.value != []
  }

  /** `panel` is the dictionary built for input `p` at 1-based position `id`:
      id, title and type always; description, datasource and targets exactly
      when the input gives them; nothing else. */
  predicate BuiltFrom(panel: Json, id: nat, p: PanelInput) {
    && panel.JObj?
    && var f := panel.fields;
    && f.Keys <= {"id", "title", "type", "description", "datasource", "targets"}
    && "id" in f && f["id"] == JNum(id)
    && "title" in f && f["title"] == JStr(p.title)
    && "type" in f && f["type"] == JStr(p.panelType)
    && ("description" in f <==> GivenText(p.description))
    && ("description" in f ==> f["description"] == JStr(p.description.value))
    && ("datasource" in f <==> GivenText(p.datasource))
    && ("datasource" in f ==> f["datasource"] == JStr(p.datasource.value))
    && ("targets" in f <==> GivenList(p.targets))
    && ("targets" in f ==> f["targets"] == JArr(p.targets.value))
  }

  /** `v` is the panel list built from `inputs`: one panel per input, in
      order, with ids 1..n. */
  predicate PanelsBuilt(v: Json, inputs: seq<PanelInput>) {
    && v.JArr?
    && |v.items| == |inputs|
    && forall i :: 0 <= i < |inputs| ==> BuiltFrom(v.items[i], i + 1, inputs[i])
  }

  /** The `for i, panel_input in enumerate(input.panels)` loop shared by the
      create and update resolvers. */
  method BuildPanels(inputs: seq<PanelInput>) returns (panels: seq<Json>)
    ensures PanelsBuilt(JArr(panels), inputs)
  {
    panels := [];
    var i := 0;
    while i < |inputs|
      invariant 0 <= i <= |inputs| && |panels| == i
      invariant forall k :: 0 <= k < i ==> BuiltFrom(panels[k], k + 1, inputs[k])
    {
      var p := inputs[i];
      var panel := map["id" := JNum(i + 1), "title" := JStr(p.title), "type" := JStr(p.panelType)];
      if GivenText(p.description) {
        panel := panel["description" := JStr(p.description.value)];
      }
      if GivenText(p.datasource) {
        panel := panel["datasource" := JStr(p.datasource.value)];
      }
      if GivenList(p.targets) {
        panel := panel["targets" := JArr(p.targets.value)];
      }
      panels := panels + [JObj(panel)];
      i := i + 1;
    }
  }

  /** The panel contract leaves no freedom: one dictionary satisfies it. */
  lemma BuiltFromUnique(a: Json, b: Json, id: nat, p: PanelInput)
    requires BuiltFrom(a, id, p) && BuiltFrom(b, id, p)
    ensures a == b
  {
    assert a.fields.Keys == b.fields.Keys;
  }

  /** Likewise for a whole panel list. */
  lemma PanelsBuiltUnique(a: Json, b: Json, inputs: seq<PanelInput>)
    requires PanelsBuilt(a, inputs) && PanelsBuilt(b, inputs)
    ensures a == b
  {
    forall i | 0 <= i < |inputs| ensures a.items[i] == b.items[i] {
      BuiltFromUnique(a.items[i], b.items[i], i + 1, inputs[i]);
    }
  }

  /** The ids of the built panels are 1, 2, ..., n in input order. */
  lemma PanelIdsSequential(v: Json, inputs: seq<PanelInput>)
    requires PanelsBuilt(v, inputs)
    ensures forall i :: 0 <= i < |v.items| ==> v.items[i].JObj? && v.items[i].fields["id"] == JNum(i + 1)
  {
  }

  // ---------------------------------------------------------------------------
  // `resolve_create_dashboard`: the dashboard sent to Grafana
  // ---------------------------------------------------------------------------

  /** The dashboard dictionary the create resolver sends: the title, the tags
      (`[]` when not given), and the panels built from the input (`[]` when
      none are given). */
  method NewDashboardData(input: DashboardInput) returns (data: map<string, Json>)
    ensures data.Keys == {"title", "tags", "panels"}
    ensures data["title"] == JStr(input.title)
    ensures data["tags"] == JArr(Strs(input.tags.GetOr([])))
    ensures GivenList(input.panels) ==> PanelsBuilt(data["panels"], input.panels.value)
    ensures !GivenList(input.panels) ==> data["panels"] == JArr([])
  {
    data := map["title" := JStr(input.title),
                "tags" := JArr(Strs(input.tags.GetOr([]))),
                "panels" := JArr([])];
    if GivenList(input.panels) {
      var panels := BuildPanels(input.panels.value);
      data := data["panels" := JArr(panels)];
    }
  }

  // ---------------------------------------------------------------------------
  // `resolve_update_dashboard`: merging the input into the stored dashboard
  // ---------------------------------------------------------------------------

  /** `k` is absent from both maps or present in both with the same value. */
  predicate SameEntry(a: map<string, Json>, b: map<string, Json>, k: string) {
    (k in a <==> k in b) && (k in a ==> a[k] == b[k])
  }

  /** `data` is `existing` after the update: the title always replaced, the
      tags replaced whenever given (an empty list too), the panels replaced
      only by a non-empty list, every other key kept. */
  ghost predicate MergedFrom(existing: map<string, Json>, input: DashboardInput, data: map<string, Json>) {
    && "title" in data && data["title"] == JStr(input.title)
    && (input.tags.Some? ==> "tags" in data && data["tags"] == JArr(Strs(input.tags.value)))
    && (input.tags.None? ==> SameEntry(existing, data, "tags"))
    && (GivenList(input.panels) ==> "panels" in data && PanelsBuilt(data["panels"], input.panels.value))
    && (!GivenList(input.panels) ==> SameEntry(existing, data, "panels"))
    && forall k :: k != "title" && k != "tags" && k != "panels" ==> SameEntry(existing, data, k)
  }

  /** The in-place updates of `dashboard_data` in the update resolver. */
  method MergeUpdate(existing: map<string, Json>, input: DashboardInput) returns (data: map<string, Json>)
    ensures MergedFrom(existing, input, data)
  {
    data := existing;
    data := data["title" := JStr(input.title)];
    if input.tags.Some? {
      data := data["tags" := JArr(Strs(input.tags.value))];
    }
    if GivenList(input.panels) {
      var panels := BuildPanels(input.panels.value);
      data := data["panels" := JArr(panels)];
    }
  }

  /** The merge contract determines the result completely. */
  lemma MergedFromUnique(existing: map<string, Json>, input: DashboardInput, a: map<string, Json>, b: map<string, Json>)
    requires MergedFrom(existing, input, a) && MergedFrom(existing, input, b)
    ensures a == b
  {
    if GivenList(input.panels) {
      PanelsBuiltUnique(a["panels"], b["panels"], input.panels.value);
    }
    forall k ensures SameEntry(a, b, k) {
      if k == "title" {
      } else if k == "tags" {
        if input.tags.None? {
          assert SameEntry(existing, a, k) && SameEntry(existing, b, k);
        }
      } else if k == "panels" {
        if !GivenList(input.panels) {
          assert SameEntry(existing, a, k) && SameEntry(existing, b, k);
        }
      } else {
        assert SameEntry(existing, a, k) && SameEntry(existing, b, k);
      }
    }
    assert a.Keys == b.Keys by {
      forall k ensures k in a <==> k in b {
        assert SameEntry(a, b, k);
      }
    }
    forall k | k in a ensures a[k] == b[k] {
      assert SameEntry(a, b, k);
    }
  }

  /** An empty tag list still replaces the stored tags; an empty panel list
      leaves the stored panels alone. */
  lemma EmptyInputLists(existing: map<string, Json>, title: string, data: map<string, Json>)
    requires MergedFrom(existing, DashboardInput(title, Some([]), Some([])), data)
    ensures "tags" in data && data["tags"] == JArr([])
    ensures SameEntry(existing, data, "panels")
  {
  }

  // ---------------------------------------------------------------------------
  // Failure branches of update and delete
  // ---------------------------------------------------------------------------

  /** What `api.get_dashboard(uid)` gave: an exception (its text), or a body. */
  datatype FetchResult = FetchFailed(reason: string) | Fetched(body: Json)

  datatype MutationResponse = MutationResponse(success: bool, message: string)

  function NotFoundMessage(uid: string): string {
    "Dashboard with UID " + uid + " not found"
  }

  /** How far the update resolver gets: an answer without sending anything,
      an exception raised by Python itself while merging (answered with
      "Failed to update dashboard: " and that exception's text), or the merged
      dashboard to send to Grafana. */
  datatype UpdateStep = Respond(response: MutationResponse) | Faulted | Submit(data: map<string, Json>)

  /** `resolve_update_dashboard` up to the update call. */
  method ResolveUpdate(uid: string, fetched: FetchResult, input: DashboardInput) returns (step: UpdateStep)
    ensures fetched.FetchFailed? ==>
              step == Respond(MutationResponse(false, "Failed to update dashboard: " + fetched.reason))
    ensures fetched.Fetched? && !Truthy(fetched.body) ==>
              step == Respond(MutationResponse(false, NotFoundMessage(uid)))
    ensures step.Submit? <==>
              fetched.Fetched? && fetched.body.JObj? && Truthy(fetched.body)
              && Get(fetched.body.fields, "dashboard", JObj(map[])).JObj?
    ensures step.Submit? ==>
              MergedFrom(Get(fetched.body.fields, "dashboard", JObj(map[])).fields, input, step.data)
    ensures fetched.Fetched? && Truthy(fetched.body) && !step.Submit? ==> step == Faulted
  {
    match fetched {
      case FetchFailed(e) =>
        step := Respond(MutationResponse(false, "Failed to update dashboard: " + e));
      case Fetched(body) =>
        if !Truthy(body) {
          step := Respond(MutationResponse(false, NotFoundMessage(uid)));
        } else if !body.JObj? {
          step := Faulted;
        } else {
          var stored := Get(body.fields, "dashboard", JObj(map[]));
          if !stored.JObj? {
            step := Faulted;
          } else {
            var data := MergeUpdate(stored.fields, input);
            step := Submit(data);
          }
        }
    }
  }

  /** The `Dashboard` object returned after a delete. */
  datatype DashboardView = DashboardView(uid: string, id: Json, title: Json, url: Json, tags: Json, panels: Json)

  /** The delete resolver's reply, or an exception raised by Python itself
      (answered with "Failed to delete dashboard: " and its text). */
  datatype DeleteReply = Answer(response: MutationResponse, dashboard: Option<DashboardView>) | DeleteFaulted

  /** Whether the delete call was made, and the reply. */
  datatype DeleteOutcome = DeleteOutcome(deleteCalled: bool, reply: DeleteReply)

  /** `resolve_delete_dashboard`; `deleteError` is the text of the exception
      the delete call raises, if it does. */
  function ResolveDelete(uid: string, fetched: FetchResult, deleteError: Option<string>): (r: DeleteOutcome)
    ensures r.deleteCalled <==> fetched.Fetched? && fetched.body.JObj? && Truthy(fetched.body)
    ensures fetched.FetchFailed? ==>
              r.reply == Answer(MutationResponse(false, "Failed to delete dashboard: " + fetched.reason), None)
    ensures fetched.Fetched? && !Truthy(fetched.body) ==>
              r.reply == Answer(MutationResponse(false, NotFoundMessage(uid)), None)
    ensures r.reply.Answer? && r.reply.response.success ==>
              && r.deleteCalled && deleteError.None?
              && r.reply.response.message == "Dashboard deleted successfully"
              && r.reply.dashboard.Some? && r.reply.dashboard.value.uid == uid
    ensures fetched.Fetched? && Truthy(fetched.body) && !fetched.body.JObj? ==> r.reply == DeleteFaulted
    ensures r.deleteCalled && deleteError.Some? ==>
              r.reply == Answer(MutationResponse(false, "Failed to delete dashboard: " + deleteError.value), None)
    ensures r.deleteCalled && deleteError.None? ==>
              var meta := Get(fetched.body.fields, "meta", JObj(map[]));
              var stored := Get(fetched.body.fields, "dashboard", JObj(map[]));
              if meta.JObj? && stored.JObj? then
                r.reply == Answer(MutationResponse(true, "Dashboard deleted successfully"),
                                  Some(DashboardView(uid, Get(meta.fields, "id", JNull), Get(stored.fields, "title", JNull),
                                                     Get(meta.fields, "url", JStr("")), Get(stored.fields, "tags", JArr([])),
                                                     Get(stored.fields, "panels", JArr([])))))
              else r.reply == DeleteFaulted
  {
    match fetched
    case FetchFailed(e) =>
      DeleteOutcome(false, Answer(MutationResponse(false, "Failed to delete dashboard: " + e), None))
    case Fetched(body) =>
      if !Truthy(body) then DeleteOutcome(false, Answer(MutationResponse(false, NotFoundMessage(uid)), None))
      else if !body.JObj? then DeleteOutcome(false, DeleteFaulted)
      else
        var meta := Get(body.fields, "meta", JObj(map[]));
        var stored := Get(body.fields, "dashboard", JObj(map[]));
        if deleteError.Some? then
          DeleteOutcome(true, Answer(MutationResponse(false, "Failed to delete dashboard: " + deleteError.value), None))
        else if !meta.JObj? || !stored.JObj? then DeleteOutcome(true, DeleteFaulted)
        else
          var view := DashboardView(uid, Get(meta.fields, "id", JNull), Get(stored.fields, "title", JNull),
                                    Get(meta.fields, "url", JStr("")), Get(stored.fields, "tags", JArr([])),
                                    Get(stored.fields, "panels", JArr([])));
          DeleteOutcome(true, Answer(MutationResponse(true, "Dashboard deleted successfully"), Some(view)))
  }
}
