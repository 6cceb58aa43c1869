/** The shape of a reply from the language-model service, as both
    app.py (`get_insights_from_gemini`) and grafana_mcp_server.py
    (`_call_gemini_api`) read it: a list of candidates, each with a content
    holding a list of parts, each part possibly carrying text. A field is
    `None` when its key is absent from the JSON object. */
module GeminiReply {
  import opened Wrappers

  datatype Part = Part(text: Option<string>)
  datatype Content = Content(parts: Option<seq<Part>>)
  datatype Candidate = Candidate(content: Option<Content>)
  datatype Reply = Reply(candidates: Option<seq<Candidate>>)

  /** What the HTTP exchange produced. `PostFailed` is a
      `requests.exceptions.RequestException` (connection error, timeout, a
      non-2xx status raised by `raise_for_status`, or a body that is not JSON);
      `ProcessingFailed` is any other exception while reading the reply (for
      example a `TypeError` when a field holds a value of an unexpected type).
      The string is the exception's text. */
  datatype PostOutcome =
    | PostFailed(reason: string)
    | ProcessingFailed(reason: string)
    | Received(reply: Reply)

  /** The API key guard `if not GEMINI_API_KEY`: an unset or empty key. */
  predicate KeyConfigured(apiKey: Option<string>) {
    apiKey.Some? && apiKey.value != ""
  }

  /** The first part of the first candidate, when the candidates list is
      present and non-empty and its first element has content whose parts list
      is present and non-empty. A missing content reads as `{}`, which has no
      parts. */
  function FirstPart(reply: Reply): (r: Option<Part>)
    ensures r.Some? ==>
              && reply.candidates.Some? && |reply.candidates.value| > 0
              && reply.candidates.value[0].content.Some?
              && reply.candidates.value[0].content.value.parts.Some?
              && r.value in reply.candidates.value[0].content.value.parts.value
  {
    if reply.candidates.Some? && |reply.candidates.value| > 0 then
      var content := reply.candidates.value[0].content.GetOr(Content(None));
      if content.parts.Some? && |content.parts.value| > 0 then Some(content.parts.value[0])
      else None
    else None
  }

  /** A reply of the expected shape yields its first candidate's first part,
      whatever follows it. */
  lemma FirstPartOfWellFormed(p: Part, moreParts: seq<Part>, moreCandidates: seq<Candidate>)
    ensures FirstPart(Reply(Some([Candidate(Some(Content(Some([p] + moreParts))))] + moreCandidates))) == Some(p)
  {
  }

  /** No first part exactly when the candidates are missing or empty, or the
      first candidate's content is missing, or its parts are missing or empty. */
  lemma FirstPartMissing(reply: Reply)
    ensures FirstPart(reply).None? <==>
      || reply.candidates.None?
      || reply.candidates.value == []
      || reply.candidates.value[0].content.None?
      || reply.candidates.value[0].content.value.parts.None?
      || reply.candidates.value[0].content.value.parts.value == []
  {
  }
}
