/** The decisions the web front end (app.py) takes before rendering a page:
    extracting a dashboard UID from a submitted URL, and turning the model
    service's reply into the insights text. Template rendering, redirects and
    the HTTP request are not modelled; the request's outcome is an input. */
module App {
  import opened Wrappers
  import opened Strings
  import opened GeminiReply

  // ---------------------------------------------------------------------------
  // UID extraction: `re.search(r'/d/([^/]+)/', url)`
  // ---------------------------------------------------------------------------

  /** The pattern matches at position `i` of `url` with `uid` as its group:
      "/d/" at `i`, then `uid` (non-empty, slash-free), then '/'. */
  predicate IsCaptureAt(url: string, i: nat, uid: string) {
    && i + 3 + |uid| < |url|
    && url[i..i + 3] == "/d/"
    && uid != ""
    && '/' !in uid
    && url[i + 3..i + 3 + |uid|] == uid
    && url[i + 3 + |uid|] == '/'
  }

  /** The match attempt at position `i`: the greedy `[^/]+` runs to the next
      '/', which must exist and must not be the first character. */
  function CaptureAt(url: string, i: nat): (r: Option<string>)
    ensures r.Some? ==> r.value != "" && '/' !in r.value
  {
    if i + 3 <= |url| && url[i..i + 3] == "/d/" then
      var j := IndexFrom(url, '/', i + 3);
      if i + 3 < j < |url| then Some(url[i + 3..j]) else None
    else None
  }

  /** The match attempt at `i` yields `uid` exactly when the pattern matches
      there with `uid` as its group. */
  lemma CaptureAtSpec(url: string, i: nat, uid: string)
    ensures IsCaptureAt(url, i, uid) <==> CaptureAt(url, i) == Some(uid)
  {
    if i + 3 <= |url| && url[i..i + 3] == "/d/" {
      var j := IndexFrom(url, '/', i + 3);
      if i + 3 < j < |url| {
        assert IsCaptureAt(url, i, url[i + 3..j]);
      }
      if IsCaptureAt(url, i, uid) {
        var k := i + 3 + |uid|;
        assert forall m :: i + 3 <= m < k ==> url[m] == uid[m - i - 3];
        IndexFromUnique(url, '/', i + 3, k);
      }
    }
  }

  /** The leftmost position at or after `i` where the pattern matches. */
  function FirstCaptureFrom(url: string, i: nat): (r: Option<nat>)
    decreases |url| - i
  {
    if i >= |url| then None
    else if CaptureAt(url, i).Some? then Some(i)
    else FirstCaptureFrom(url, i + 1)
  }

  /** `re.search(r'/d/([^/]+)/', url)` followed by `match.group(1)`. */
  function SearchUid(url: string): (r: Option<string>)
    ensures r.Some? ==> r.value != "" && '/' !in r.value
  {
    match FirstCaptureFrom(url, 0)
    case Some(i) => CaptureAt(url, i)
    case None => None
  }

  lemma {:induction false} FirstCaptureFromSpec(url: string, i: nat)
    ensures FirstCaptureFrom(url, i).Some? ==>
              var k := FirstCaptureFrom(url, i).value;
              i <= k && CaptureAt(url, k).Some? && forall m :: i <= m < k ==> CaptureAt(url, m).None?
    ensures FirstCaptureFrom(url, i).None? ==> forall m :: i <= m ==> CaptureAt(url, m).None?
    decreases |url| - i
  {
    if i >= |url| {
      forall m | i <= m ensures CaptureAt(url, m).None? {
      }
    } else if CaptureAt(url, i).None? {
      FirstCaptureFromSpec(url, i + 1);
      var r := FirstCaptureFrom(url, i + 1);
      assert FirstCaptureFrom(url, i) == r;
      if r.Some? {
        forall m | i <= m < r.value ensures CaptureAt(url, m).None? {
          if m > i {
          }
        }
      } else {
        forall m | i <= m ensures CaptureAt(url, m).None? {
          if m > i {
          }
        }
      }
    }
  }

  /** The extracted uid is the group of a match at some position, and no
      earlier position matches at all (leftmost match). */
  lemma SearchUidLeftmost(url: string, uid: string)
    requires SearchUid(url) == Some(uid)
    ensures exists i: nat :: IsCaptureAt(url, i, uid) && forall j: nat, v :: 0 <= j < i ==> !IsCaptureAt(url, j, v)
  {
    FirstCaptureFromSpec(url, 0);
    var i := FirstCaptureFrom(url, 0).value;
    CaptureAtSpec(url, i, uid);
    forall j: nat, v | j < i ensures !IsCaptureAt(url, j, v) {
      CaptureAtSpec(url, j, v);
    }
  }

  /** Extraction fails exactly when the pattern matches nowhere. */
  lemma SearchUidNone(url: string)
    ensures SearchUid(url).None? <==> forall i: nat, v :: !IsCaptureAt(url, i, v)
  {
    FirstCaptureFromSpec(url, 0);
    if SearchUid(url).None? {
      forall i: nat, v ensures !IsCaptureAt(url, i, v) {
        CaptureAtSpec(url, i, v);
      }
    } else {
      var i := FirstCaptureFrom(url, 0).value;
      CaptureAtSpec(url, i, CaptureAt(url, i).value);
    }
  }

  /** A match at `i` means "/d/" + uid + "/" occurs in the URL at `i`. */
  lemma CaptureOccurs(url: string, i: nat, uid: string)
    requires IsCaptureAt(url, i, uid)
    ensures OccursAt(url, "/d/" + uid + "/", i)
  {
    var needle := "/d/" + uid + "/";
    var k := i + 3 + |uid|;
    forall m | 0 <= m < |needle| ensures url[i + m] == needle[m] {
      if m < 3 {
        assert url[i + m] == url[i..i + 3][m];
      } else if m < 3 + |uid| {
        assert url[i + m] == url[i + 3..k][m - 3];
      }
    }
    assert url[i..i + |needle|] == needle;
  }

  /** An extracted uid is non-empty and slash-free, and "/d/" + uid + "/"
      occurs in the URL. */
  lemma SearchUidWellFormed(url: string, uid: string)
    requires SearchUid(url) == Some(uid)
    ensures uid != "" && '/' !in uid
    ensures Contains(url, "/d/" + uid + "/")
  {
    FirstCaptureFromSpec(url, 0);
    var i := FirstCaptureFrom(url, 0).value;
    CaptureAtSpec(url, i, uid);
    CaptureOccurs(url, i, uid);
    assert i <= |url| - |"/d/" + uid + "/"|;
  }

  /** A URL that ends right after the uid, with no closing '/', yields nothing. */
  lemma NoClosingSlash()
    ensures SearchUid("/d/abc") == None
    ensures SearchUid("/d/abc/") == Some("abc")
  {
    SearchUidNone("/d/abc");
    forall i: nat, v ensures !IsCaptureAt("/d/abc", i, v) {
    }
    CaptureAtSpec("/d/abc/", 0, "abc");
  }

  // ---------------------------------------------------------------------------
  // `analyze_url`
  // ---------------------------------------------------------------------------

  const UrlRequired := "Dashboard URL is required."
  const UidNotExtracted := "Could not extract dashboard UID from the provided URL. Ensure it follows the format '.../d/UID/...' "

  /** Either a redirect to the dashboard view for `uid`, or the form again
      with an error message. */
  datatype AnalyzeOutcome = RedirectToDashboard(uid: string) | ShowForm(error: string)

  /** `analyze_url` on the submitted form field (`None` when absent). */
  function AnalyzeUrl(dashboardUrl: Option<string>): (r: AnalyzeOutcome)
    ensures dashboardUrl.None? || dashboardUrl == Some("") ==> r == ShowForm(UrlRequired)
    ensures r.RedirectToDashboard? ==>
              dashboardUrl.Some? && SearchUid(dashboardUrl.value) == Some(r.uid)
    ensures dashboardUrl.Some? && dashboardUrl.value != "" ==>
              (r == ShowForm(UidNotExtracted) <==> SearchUid(dashboardUrl.value).None?)
    ensures dashboardUrl.Some? && dashboardUrl.value != "" && SearchUid(dashboardUrl.value).Some? ==>
              r == RedirectToDashboard(SearchUid(dashboardUrl.value).value)
  {
    if dashboardUrl.None? || dashboardUrl.value == "" then ShowForm(UrlRequired)
    else
      match SearchUid(dashboardUrl.value)
      case Some(uid) => RedirectToDashboard(uid)
      case None => ShowForm(UidNotExtracted)
  }

  /** Every redirect carries a well-formed uid found in the URL. */
  lemma AnalyzeUrlRedirects(dashboardUrl: string)
    requires AnalyzeUrl(Some(dashboardUrl)).RedirectToDashboard?
    ensures var uid := AnalyzeUrl(Some(dashboardUrl)).uid;
            uid != "" && '/' !in uid && Contains(dashboardUrl, "/d/" + uid + "/")
  {
    SearchUidWellFormed(dashboardUrl, AnalyzeUrl(Some(dashboardUrl)).uid);
  }

  // ---------------------------------------------------------------------------
  // `get_insights_from_gemini`
  // ---------------------------------------------------------------------------

  const KeyNotConfigured := "Error: Gemini API Key not configured."
  const NoInsightText := "Error: Could not extract insights from Gemini response."
  const UnexpectedFormat := "Error: Unexpected response format from Gemini API."
  const CallErrorPrefix := "Error calling Gemini API: "
  const ProcessingErrorPrefix := "An unexpected error occurred while processing Gemini response: "

  /** The text returned, and whether a request was sent at all. */
  datatype Insights = Insights(text: string, requestSent: bool)

  /** `get_insights_from_gemini`, with the POST's outcome as an input. */
  function GetInsights(apiKey: Option<string>, post: PostOutcome): (r: Insights)
    ensures !KeyConfigured(apiKey) <==> !r.requestSent
    ensures !KeyConfigured(apiKey) ==> r.text == KeyNotConfigured
    ensures KeyConfigured(apiKey) && post.PostFailed? ==> r.text == CallErrorPrefix + post.reason
    ensures KeyConfigured(apiKey) && post.ProcessingFailed? ==> r.text == ProcessingErrorPrefix + post.reason
  {
    if !KeyConfigured(apiKey) then Insights(KeyNotConfigured, false)
    else
      var text := match post
        case PostFailed(e) => CallErrorPrefix + e
        case ProcessingFailed(e) => ProcessingErrorPrefix + e
        case Received(reply) =>
          match FirstPart(reply)
          case None => UnexpectedFormat
          case Some(part) => part.text.GetOr(NoInsightText);
      Insights(text, true)
  }

  /** With a key set and a reply received: the first candidate's first part
      text when there is one, the "could not extract" default when that part
      has no text, and the unexpected-format message when candidates or parts
      are missing or empty. */
  lemma InsightsFromReply(apiKey: Option<string>, reply: Reply)
    requires KeyConfigured(apiKey)
    ensures var text := GetInsights(apiKey, Received(reply)).text;
            && (FirstPart(reply).None? ==> text == UnexpectedFormat)
            && (FirstPart(reply) == Some(Part(None)) ==> text == NoInsightText)
            && (forall t :: FirstPart(reply) == Some(Part(Some(t))) ==> text == t)
  {
  }
}
