/**
 * The data the popup exchanges with the analysis service, the active tab and
 * the page it injects a script into. The service and the browser are not
 * modelled: what they return is an input to the operations of the popup.
 */
module Analysis {

  datatype Option<T> = None | Some(value: T)

  /**
   * An analysis result as the service returns it (`url`, `content_hash`,
   * `analyzed_at`, `content_verified_at`, `cached`, `grade`, `numeric_score`,
   * `summary`, `red_flags`, `highlights`). The `url` may be missing; a missing
   * list is the empty list, which the popup treats alike; dates are kept as the
   * strings the service sent.
   */
  datatype AnalysisResult = AnalysisResult(
    url: Option<string>,
    contentHash: string,
    analyzedAt: string,
    contentVerifiedAt: Option<string>,
    cached: bool,
    grade: string,
    numericScore: int,
    summary: string,
    redFlags: seq<string>,
    highlights: seq<string>)

  /**
   * The outcome of one `fetch` to the analysis endpoint followed by
   * `response.json()`: an ok response with its analysis, a response that is not
   * ok with the `message` and `suggestion` of its body (each may be missing),
   * or an exception thrown by either call.
   */
  datatype Response =
    | Ok(data: AnalysisResult)
    | NotOk(message: Option<string>, suggestion: Option<string>)
    | Thrown

  /** The active tab, as `chrome.tabs.query` reports it. */
  datatype Tab = Tab(id: int, url: string)

  /**
   * The outcome of `chrome.scripting.executeScript` running the text extractor
   * in the page: the page's `document.body.innerText` (missing when the script
   * produced no result), or an exception.
   */
  datatype Extraction = Extracted(bodyText: Option<string>) | ExtractionThrown

  /** The body of a request to the analysis endpoint: `{url}` or `{text, url}`. */
  datatype AnalyzeRequest = ByUrl(url: string) | ByText(text: string, pageUrl: string)

  /** The body of a request to the feedback endpoint; the `url` is left out when the analysis has none. */
  datatype FeedbackRecord = FeedbackRecord(
    analysisId: string,
    url: Option<string>,
    grade: string,
    helpful: bool,
    timestamp: string)

  /** JavaScript's `a || b` for a string that may be missing: the empty string is falsy too. */
  function OrDefault(s: Option<string>, default: string): (r: string)
    ensures r == default <==> s.None? || s.value == "" || s.value == default
    ensures r != default ==> s == Some(r)
  {
    if s.Some? && s.value != "" then s.value else default
  }

  /** A possibly missing string inside a template literal: a missing one prints as `undefined`. */
  function TemplateText(s: Option<string>): (r: string)
    ensures s.Some? ==> r == s.value
    ensures s.None? ==> r == "undefined"
  {
    match s
    case Some(v) => v
    case None => "undefined"
  }
}
