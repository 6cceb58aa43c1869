/** The client for Grafana's HTTP API (grafana_api.py): the headers it sends,
    the rule that picks out cost-related dashboards from a search result, and
    the kiosk-mode embed URL. The HTTP calls themselves are not modelled: the
    dashboard search result is an input. */
module GrafanaApi {
  import opened Wrappers
  import opened Strings

  /** A client: the base URL, the headers sent on every request, the org id. */
  datatype Client = Client(baseUrl: string, headers: map<string, string>, orgId: string)

  /** `GrafanaAPI.__init__`: a bearer-token Authorization header plus JSON
      content negotiation; base URL and org id are kept as given. */
  function NewClient(baseUrl: string, serviceToken: string, orgId: string): (c: Client)
    ensures c.baseUrl == baseUrl && c.orgId == orgId
    ensures c.headers.Keys == {"Authorization", "Content-Type", "Accept"}
    ensures c.headers["Content-Type"] == "application/json" && c.headers["Accept"] == "application/json"
    ensures BearerToken(c.headers["Authorization"]) == Some(serviceToken)
  {
    Client(baseUrl,
           map["Authorization" := "Bearer " + serviceToken,
               "Content-Type" := "application/json",
               "Accept" := "application/json"],
           orgId)
  }

  /** The token carried by an Authorization value of the form "Bearer <token>". */
  function BearerToken(authorization: string): Option<string> {
    if "Bearer " <= authorization then Some(authorization[7..]) else None
  }

  // ---------------------------------------------------------------------------
  // Cost-dashboard classification
  // ---------------------------------------------------------------------------

  /** One entry of Grafana's dashboard search result. `title` and `tags` are
      `None` when the entry has no such key. */
  datatype SearchHit = SearchHit(uid: string, title: Option<string>, tags: Option<seq<string>>)

  /** The fixed list of terms that mark a dashboard as cost-related. */
  const CostTerms: seq<string> := ["cost", "expense", "billing", "finance", "budget"]

  /** The lower-cased title contains one of the terms as a substring. */
  predicate TitleMatches(title: string) {
    exists term :: term in CostTerms && Contains(Lower(title), term)
  }

  /** One of the terms is, exactly, one of the tags. */
  predicate TagsMatch(tags: seq<string>) {
    exists term :: term in CostTerms && term in tags
  }

  /** The condition of the comprehension in `get_cost_dashboards`; a missing
      title reads as "" and missing tags as []. */
  predicate IsCostDashboard(d: SearchHit) {
    TitleMatches(d.title.GetOr("")) || TagsMatch(d.tags.GetOr([]))
  }

  /** `get_cost_dashboards` on an already fetched search result. */
  function CostDashboards(all: seq<SearchHit>): (r: seq<SearchHit>)
    ensures |r| <= |all|
    ensures forall h :: h in r ==> h in all && IsCostDashboard(h)
    decreases |all|
  {
    if all == [] then []
    else (if IsCostDashboard(all[0]) then [all[0]] else []) + CostDashboards(all[1..])
  }

  /** `xs` is `ys` with some elements removed, the rest kept in order. */
  predicate IsSubsequence<T(==)>(xs: seq<T>, ys: seq<T>)
    decreases |ys|
  {
    if xs == [] then true
    else if ys == [] then false
    else if xs[0] == ys[0] then IsSubsequence(xs[1..], ys[1..])
    else IsSubsequence(xs, ys[1..])
  }

  /** A dashboard is in the result iff it is in the input and qualifies. */
  lemma {:induction false} CostDashboardsMembers(all: seq<SearchHit>, d: SearchHit)
    ensures d in CostDashboards(all) <==> d in all && IsCostDashboard(d)
    decreases |all|
  {
    if all != [] {
      CostDashboardsMembers(all[1..], d);
      assert all == [all[0]] + all[1..];
    }
  }

  /** Nothing is duplicated or invented: every qualifying dashboard occurs as
      often as in the input, every other one not at all. */
  lemma {:induction false} CostDashboardsCount(all: seq<SearchHit>, d: SearchHit)
    ensures multiset(CostDashboards(all))[d] == if IsCostDashboard(d) then multiset(all)[d] else 0
    decreases |all|
  {
    if all != [] {
      CostDashboardsCount(all[1..], d);
      assert all == [all[0]] + all[1..];
    }
  }

  /** The result keeps the input's order: it is a subsequence of it. */
  lemma {:induction false} CostDashboardsOrdered(all: seq<SearchHit>)
    ensures IsSubsequence(CostDashboards(all), all)
    decreases |all|
  {
    if all != [] {
      CostDashboardsOrdered(all[1..]);
      var rest := CostDashboards(all[1..]);
      if IsCostDashboard(all[0]) {
        assert CostDashboards(all) == [all[0]] + rest;
      } else {
        assert CostDashboards(all) == rest;
        SubsequenceSkip(rest, all[0], all[1..]);
      }
    }
  }

  /** Prepending an element to the larger sequence keeps a subsequence one. */
  lemma {:induction false} SubsequenceSkip<T>(xs: seq<T>, y: T, ys: seq<T>)
    requires IsSubsequence(xs, ys)
    ensures IsSubsequence(xs, [y] + ys)
    decreases |ys|, 1
  {
    var yys := [y] + ys;
    assert yys[0] == y && yys[1..] == ys;
    if xs != [] && xs[0] == y {
      SubsequenceDrop(xs, ys);
    }
  }

  /** Dropping the first element of a subsequence keeps it a subsequence. */
  lemma {:induction false} SubsequenceDrop<T>(xs: seq<T>, ys: seq<T>)
    requires xs != [] && IsSubsequence(xs, ys)
    ensures IsSubsequence(xs[1..], ys)
    decreases |ys|, 0
  {
    assert ys != [];
    assert [ys[0]] + ys[1..] == ys;
    if xs[0] == ys[0] {
      assert IsSubsequence(xs[1..], ys[1..]);
    } else {
      SubsequenceDrop(xs, ys[1..]);
    }
    SubsequenceSkip(xs[1..], ys[0], ys[1..]);
  }

  /** Filtering the filtered list changes nothing. */
  lemma {:induction false} CostDashboardsIdempotent(all: seq<SearchHit>)
    ensures CostDashboards(CostDashboards(all)) == CostDashboards(all)
    decreases |all|
  {
    if all != [] {
      CostDashboardsIdempotent(all[1..]);
      var rest := CostDashboards(all[1..]);
      if IsCostDashboard(all[0]) {
        var kept := [all[0]] + rest;
        assert CostDashboards(all) == kept;
        assert kept[0] == all[0] && kept[1..] == rest;
        assert CostDashboards(kept) == [all[0]] + CostDashboards(rest);
      } else {
        assert CostDashboards(all) == rest;
      }
    }
  }

  /** A missing title counts as "", which matches no term, so such a dashboard
      qualifies only through its tags; a missing tag list likewise qualifies
      only through the title. */
  lemma MissingFields(uid: string, title: Option<string>, tags: Option<seq<string>>)
    ensures IsCostDashboard(SearchHit(uid, None, tags)) <==> TagsMatch(tags.GetOr([]))
    ensures IsCostDashboard(SearchHit(uid, title, None)) <==> TitleMatches(title.GetOr(""))
  {
  }

  /** Title matching ignores case: a title and its lower-cased form qualify alike. */
  lemma TitleIgnoresCase(title: string)
    ensures TitleMatches(title) <==> TitleMatches(Lower(title))
  {
    assert Lower(Lower(title)) == Lower(title);
  }

  /** A title in capitals qualifies, but a tag in capitals does not: tags are
      compared exactly. */
  lemma CaseExamples()
    ensures IsCostDashboard(SearchHit("a", Some("Cloud COST"), None))
    ensures !IsCostDashboard(SearchHit("b", None, Some(["Cost"])))
  {
    assert Lower("Cloud COST")[6..10] == "cost";
    assert "cost" in CostTerms && OccursAt(Lower("Cloud COST"), "cost", 6);
    MissingFields("b", None, Some(["Cost"]));
  }

  // ---------------------------------------------------------------------------
  // Embed URL
  // ---------------------------------------------------------------------------

  const DefaultTheme := "light"
  const DefaultFrom := "now-7d"
  const DefaultTo := "now"

  /** One `key=value` query parameter. */
  function Param(key: string, value: string): string {
    key + "=" + value
  }

  /** The dashboard path of the embed URL. */
  function EmbedPath(c: Client, uid: string): string {
    c.baseUrl + "/d/" + uid
  }

  /** The query of the embed URL: orgId, theme, from and to, then a bare kiosk flag. */
  function EmbedQuery(c: Client, theme: string, fromTime: string, toTime: string): string {
    Param("orgId", c.orgId) + "&" + Param("theme", theme) + "&" + Param("from", fromTime)
      + "&" + Param("to", toTime) + "&kiosk"
  }

  /** `generate_dashboard_embed_url`: the f-string, grouped as path '?' query. */
  function EmbedUrl(c: Client, uid: string, theme: string, fromTime: string, toTime: string): (url: string)
    ensures '?' !in EmbedPath(c, uid) ==>
              PathPart(url) == EmbedPath(c, uid) && QueryPart(url) == EmbedQuery(c, theme, fromTime, toTime)
  {
    var path := EmbedPath(c, uid);
    var query := EmbedQuery(c, theme, fromTime, toTime);
    PathAndQuery(path, query);
    path + "?" + query
  }

  /** The embed URL with the source's default theme and time range. */
  function DefaultEmbedUrl(c: Client, uid: string): string {
    EmbedUrl(c, uid, DefaultTheme, DefaultFrom, DefaultTo)
  }

  /** The part of a URL before its first '?'. */
  function PathPart(url: string): string {
    url[..IndexFrom(url, '?', 0)]
  }

  /** The part of a URL after its first '?', or "" when there is none. */
  function QueryPart(url: string): string {
    var q := IndexFrom(url, '?', 0);
    if q < |url| then url[q + 1..] else ""
  }

  /** A '?'-free path followed by '?' and a query splits back into the two. */
  lemma PathAndQuery(path: string, query: string)
    ensures '?' !in path ==> PathPart(path + "?" + query) == path && QueryPart(path + "?" + query) == query
  {
    if '?' !in path {
      var url := path + "?" + query;
      IndexFromUnique(url, '?', 0, |path|);
      assert url[..|path|] == path;
      assert url[|path| + 1..] == query;
    }
  }

  /** Splitting "a&b" on '&' when a and b are '&'-free. */
  lemma SplitTwo(a: string, b: string)
    requires '&' !in a && '&' !in b
    ensures Split(a + "&" + b, '&') == [a, b]
  {
    SplitNone(a, '&');
    SplitSnoc(a, '&', b);
  }

  /** Splitting "a&b&c" on '&' when a, b, c are '&'-free. */
  lemma SplitThree(a: string, b: string, c: string)
    requires '&' !in a && '&' !in b && '&' !in c
    ensures Split(a + "&" + b + "&" + c, '&') == [a, b, c]
  {
    SplitTwo(a, b);
    SplitSnoc(a + "&" + b, '&', c);
  }

  /** Splitting "a&b&c&d" on '&' when a, b, c, d are '&'-free. */
  lemma SplitFour(a: string, b: string, c: string, d: string)
    requires '&' !in a && '&' !in b && '&' !in c && '&' !in d
    ensures Split(a + "&" + b + "&" + c + "&" + d, '&') == [a, b, c, d]
  {
    SplitThree(a, b, c);
    SplitSnoc(a + "&" + b + "&" + c, '&', d);
  }

  /** Splitting "a&b&c&d&kiosk" on '&' when a, b, c, d are '&'-free. */
  lemma SplitParameters(a: string, b: string, c: string, d: string)
    requires '&' !in a && '&' !in b && '&' !in c && '&' !in d
    ensures Split(a + "&" + b + "&" + c + "&" + d + "&kiosk", '&') == [a, b, c, d, "kiosk"]
  {
    var init := a + "&" + b + "&" + c + "&" + d;
    SplitFour(a, b, c, d);
    assert '&' !in "kiosk";
    SplitSnoc(init, '&', "kiosk");
    assert init + "&kiosk" == init + "&" + "kiosk";
  }

  /** A parameter whose key and value are '&'-free is '&'-free. */
  lemma NoAmpersand(key: string, value: string)
    requires '&' !in key && '&' !in value
    ensures '&' !in Param(key, value)
  {
    assert Param(key, value) == key + "=" + value;
    forall i | 0 <= i < |Param(key, value)| ensures Param(key, value)[i] != '&' {
      if i < |key| {
        assert Param(key, value)[i] == key[i];
      } else if i > |key| {
        assert Param(key, value)[i] == value[i - |key| - 1];
      }
    }
  }

  /** The embed URL is the dashboard path followed by '?' and a query string
      whose '&'-separated parameters are exactly orgId, theme, from, to and a
      bare kiosk flag, in that order, provided no value contains '&' and the
      path contains no '?'. */
  lemma EmbedUrlParameters(c: Client, uid: string, theme: string, fromTime: string, toTime: string)
    requires '?' !in EmbedPath(c, uid)
    requires '&' !in c.orgId && '&' !in theme && '&' !in fromTime && '&' !in toTime
    ensures var url := EmbedUrl(c, uid, theme, fromTime, toTime);
            && PathPart(url) == c.baseUrl + "/d/" + uid
            && Split(QueryPart(url), '&')
               == ["orgId=" + c.orgId, "theme=" + theme, "from=" + fromTime, "to=" + toTime, "kiosk"]
  {
    PathAndQuery(EmbedPath(c, uid), EmbedQuery(c, theme, fromTime, toTime));
    NoAmpersand("orgId", c.orgId);
    NoAmpersand("theme", theme);
    NoAmpersand("from", fromTime);
    NoAmpersand("to", toTime);
    SplitParameters(Param("orgId", c.orgId), Param("theme", theme), Param("from", fromTime), Param("to", toTime));
    ParamText("orgId", c.orgId);
    ParamText("theme", theme);
    ParamText("from", fromTime);
    ParamText("to", toTime);
  }

  /** A parameter reads as its key, '=' and its value. A solver aid that
      unfolds `Param` for the four keys; it models nothing on its own. */
  lemma ParamText(key: string, value: string)
    ensures Param(key, value) == key + "=" + value
    ensures key == "orgId" ==> Param(key, value) == "orgId=" + value
    ensures key == "theme" ==> Param(key, value) == "theme=" + value
    ensures key == "from" ==> Param(key, value) == "from=" + value
    ensures key == "to" ==> Param(key, value) == "to=" + value
  {
  }

  /** The default query's parameters. */
  lemma DefaultQueryParameters(c: Client)
    requires '&' !in c.orgId
    ensures Split(EmbedQuery(c, DefaultTheme, DefaultFrom, DefaultTo), '&')
            == [Param("orgId", c.orgId), "theme=light", "from=now-7d", "to=now", "kiosk"]
  {
    DefaultTexts();
    NoAmpersand("orgId", c.orgId);
    SplitParameters(Param("orgId", c.orgId), "theme=light", "from=now-7d", "to=now");
  }

  /** With the defaults the URL shows the light theme over the last seven days. */
  lemma DefaultEmbedUrlParameters(c: Client, uid: string)
    requires '?' !in EmbedPath(c, uid) && '&' !in c.orgId
    ensures Split(QueryPart(DefaultEmbedUrl(c, uid)), '&')
            == [Param("orgId", c.orgId), "theme=light", "from=now-7d", "to=now", "kiosk"]
  {
    var query := EmbedQuery(c, DefaultTheme, DefaultFrom, DefaultTo);
    DefaultQueryParameters(c);
    assert DefaultEmbedUrl(c, uid) == EmbedPath(c, uid) + "?" + query;
    QueryItems(DefaultEmbedUrl(c, uid), EmbedPath(c, uid), query,
               [Param("orgId", c.orgId), "theme=light", "from=now-7d", "to=now", "kiosk"]);
  }

  /** The items of a URL's query are those of the query after its '?'. */
  lemma QueryItems(url: string, path: string, query: string, ps: seq<string>)
    requires '?' !in path && url == path + "?" + query && Split(query, '&') == ps
    ensures Split(QueryPart(url), '&') == ps
  {
    PathAndQuery(path, query);
  }

  /** The default parameters spelled out, and free of '&'. */
  lemma DefaultTexts()
    ensures Param("theme", DefaultTheme) == "theme=light"
    ensures Param("from", DefaultFrom) == "from=now-7d"
    ensures Param("to", DefaultTo) == "to=now"
    ensures '&' !in "theme=light" && '&' !in "from=now-7d" && '&' !in "to=now"
  {
    assert Param("theme", DefaultTheme) == "theme=light" by {
      var t := Param("theme", DefaultTheme);
      forall i | 0 <= i < 11 ensures t[i] == "theme=light"[i] { }
    }
    assert Param("from", DefaultFrom) == "from=now-7d" by {
      var t := Param("from", DefaultFrom);
      forall i | 0 <= i < 11 ensures t[i] == "from=now-7d"[i] { }
    }
    assert Param("to", DefaultTo) == "to=now" by {
      var t := Param("to", DefaultTo);
      forall i | 0 <= i < 6 ensures t[i] == "to=now"[i] { }
    }
  }
}
