/**
 * The popup's session: what it shows, the analysis it holds (`currentAnalysis`),
 * the active tab it was opened on (`currentTab`), and the requests it has sent
 * to the analysis and feedback endpoints. Each handler of the popup is a
 * transition from one session to the next, given what the browser and the
 * service answered while it ran.
 */
module PopupSession {
  import opened Text
  import opened Analysis
  import opened Classifier
  import opened Views

  datatype Session = Session(
    view: View,
    currentAnalysis: Option<AnalysisResult>,
    currentTab: Option<Tab>,
    requests: seq<AnalyzeRequest>,
    feedback: seq<FeedbackRecord>)

  /** The `suggestion` with which the service asks for the page's text instead of its address. */
  const AuthSuggestion := "analyze_visible_content"

  const AnalyzeFailed := "Unable to analyze this page."
  const ConnectionFailed := "Unable to analyze this page. Please check your internet connection and try again."
  const TooLittleContent := "Unable to extract enough content from this page to analyze."
  const ContentAnalyzeFailed := "Unable to analyze this content."
  const PageContentFailed := "Unable to analyze page content. Please try manual URL input instead."

  /** The extractor keeps the first 80000 characters of the page's text; fewer than 100 are not sent. */
  const MaxPageText := 80000
  const MinPageText := 100

  /** `s.substring(0, n)`. */
  function Prefix(s: string, n: nat): (p: string)
    ensures p <= s
    ensures |p| == if |s| <= n then |s| else n
  {
    if |s| <= n then s else s[..n]
  }

  /** `analyzeURL` up to its `await`: the loading panel, and the request `{url}` sent. */
  function BeginAnalyzeUrl(s: Session, url: string): (t: Session)
    ensures Visible(t.view) == {LoadingState}
    ensures t.requests == s.requests + [ByUrl(url)]
    ensures t.currentAnalysis == s.currentAnalysis && t.currentTab == s.currentTab && t.feedback == s.feedback
  {
    s.(view := ShowLoading(s.view), requests := s.requests + [ByUrl(url)])
  }

  /** What `analyzeURL` does with the service's answer. */
  function FinishAnalyzeUrl(s: Session, response: Response, d: Dates): Session {
    match response
    case Ok(a) => s.(currentAnalysis := Some(a), view := DisplayResults(s.view, a, d))
    case NotOk(message, suggestion) =>
      if suggestion == Some(AuthSuggestion) then s.(view := ShowAuthError(s.view, message))
      else s.(view := ShowError(s.view, OrDefault(message, AnalyzeFailed)))
    case Thrown => s.(view := ShowError(s.view, ConnectionFailed))
  }

  /**
   * `analyzeURL(url)`: one request `{url}`; then the results of an ok answer,
   * which becomes the current analysis; the offer to analyse the page's text
   * when the service suggests it; the service's message (or a default) for
   * any other refusal; the connection message when the call fails. Only an
   * ok answer changes the current analysis, and exactly one panel ends up visible.
   */
  function AnalyzeUrl(s: Session, url: string, response: Response, d: Dates): (t: Session)
    ensures t.requests == s.requests + [ByUrl(url)]
    ensures t.currentTab == s.currentTab && t.feedback == s.feedback
    ensures |Visible(t.view)| == 1
    ensures Visible(t.view) == {ResultsState} <==> response.Ok?
    ensures Visible(t.view) == {ErrorState} <==> !response.Ok?
    ensures response.Ok? ==>
      t.currentAnalysis == Some(response.data) && t.view.resultsView == Some(RenderResults(response.data, d))
    ensures !response.Ok? ==> t.currentAnalysis == s.currentAnalysis && t.view.resultsView == s.view.resultsView
    ensures response.NotOk? ==>
      (t.view.errorMessage.AuthPrompt? <==> response.suggestion == Some(AuthSuggestion))
    ensures response.NotOk? && response.suggestion == Some(AuthSuggestion) ==>
      t.view.errorMessage == AuthPrompt(TemplateText(response.message)) && t.view.tryButton == AnalyzeThisPage
    ensures response.NotOk? && response.suggestion != Some(AuthSuggestion) ==>
      t.view.errorMessage == Plain(OrDefault(response.message, AnalyzeFailed))
    ensures response.Thrown? ==> t.view.errorMessage == Plain(ConnectionFailed)
    ensures !(response.NotOk? && response.suggestion == Some(AuthSuggestion)) ==> t.view.tryButton == s.view.tryButton
  {
    FinishAnalyzeUrl(BeginAnalyzeUrl(s, url), response, d)
  }

  /** The page's text as the extractor returns it, cut to 80000 characters; none when the script gave nothing. */
  function PageText(e: Extraction): Option<string>
    requires e.Extracted?
  {
    if e.bodyText.Some? then Some(Prefix(e.bodyText.value, MaxPageText)) else None
  }

  /** `!pageText || pageText.length < 100`. */
  predicate TooShort(text: Option<string>) {
    text.None? || |text.value| < MinPageText
  }

  /** What `analyzePageText` does with the service's answer to the text it sent. */
  function FinishAnalyzeText(s: Session, response: Response, d: Dates): (t: Session)
    ensures Visible(t.view) == {ResultsState} <==> response.Ok?
    ensures Visible(t.view) == {ErrorState} <==> !response.Ok?
    ensures t.currentTab == s.currentTab && t.feedback == s.feedback && t.requests == s.requests
  {
    match response
    case Ok(a) => s.(currentAnalysis := Some(a), view := DisplayResults(s.view, a, d))
    case NotOk(message, _) => s.(view := ShowError(s.view, OrDefault(message, ContentAnalyzeFailed)))
    case Thrown => s.(view := ShowError(s.view, PageContentFailed))
  }

  /**
   * `analyzePageText`: the text of the page in the active tab `tab`, from the
   * extraction script, is sent with the tab's address unless the script failed
   * or gave fewer than 100 characters.
   */
  function AnalyzePageText(s: Session, tab: Tab, extraction: Extraction, response: Response, d: Dates): (t: Session)
    ensures t.currentTab == s.currentTab && t.feedback == s.feedback
    ensures Visible(t.view) == {ResultsState} || Visible(t.view) == {ErrorState}
  {
    var loading := s.(view := ShowLoading(s.view));
    match extraction
    case ExtractionThrown => loading.(view := ShowError(loading.view, PageContentFailed))
    case Extracted(_) =>
      var text := PageText(extraction);
      if TooShort(text) then loading.(view := ShowError(loading.view, TooLittleContent))
      else FinishAnalyzeText(loading.(requests := loading.requests + [ByText(text.value, tab.url)]), response, d)
  }

  /**
   * Too little text: no request is sent, the current analysis stays, and the
   * error panel says there is not enough content. This is the case exactly
   * when the page gave no text or fewer than 100 characters: the cut at 80000
   * never makes a text too short.
   */
  lemma AnalyzePageTextTooShort(s: Session, tab: Tab, body: Option<string>, response: Response, d: Dates)
    ensures TooShort(PageText(Extracted(body))) <==> body.None? || |body.value| < MinPageText
    ensures body.None? || |body.value| < MinPageText ==>
      var t := AnalyzePageText(s, tab, Extracted(body), response, d);
      t.requests == s.requests && t.currentAnalysis == s.currentAnalysis &&
      Visible(t.view) == {ErrorState} && t.view.errorMessage == Plain(TooLittleContent)
  {
  }

  /**
   * Enough text: exactly one request is sent, holding the first 80000
   * characters of the page's text (all of it when shorter) and the tab's
   * address; then the results of an ok answer, which becomes the current
   * analysis, or an error. The auth branch of `analyzeURL` is never taken:
   * every error is a plain message and the try button is left as it was.
   */
  lemma AnalyzePageTextSends(s: Session, tab: Tab, body: string, response: Response, d: Dates)
    requires |body| >= MinPageText
    ensures var t := AnalyzePageText(s, tab, Extracted(Some(body)), response, d);
      |t.requests| == |s.requests| + 1 && t.requests[..|s.requests|] == s.requests &&
      var sent := t.requests[|s.requests|];
      sent.ByText? && sent.pageUrl == tab.url && sent.text <= body &&
      |sent.text| == (if |body| <= MaxPageText then |body| else MaxPageText) &&
      (response.Ok? <==> Visible(t.view) == {ResultsState}) &&
      (response.Ok? ==> t.currentAnalysis == Some(response.data)) &&
      (!response.Ok? ==> t.currentAnalysis == s.currentAnalysis && t.view.errorMessage.Plain?) &&
      (response.NotOk? ==> t.view.errorMessage.text == OrDefault(response.message, ContentAnalyzeFailed)) &&
      (response.Thrown? ==> t.view.errorMessage.text == PageContentFailed) &&
      t.view.tryButton == s.view.tryButton
  {
    var t := AnalyzePageText(s, tab, Extracted(Some(body)), response, d);
    var text := Prefix(body, MaxPageText);
    assert t.requests == s.requests + [ByText(text, tab.url)];
  }

  /** The extraction script failing: no request, and the message pointing to manual input. */
  lemma AnalyzePageTextScriptFails(s: Session, tab: Tab, response: Response, d: Dates)
    ensures var t := AnalyzePageText(s, tab, ExtractionThrown, response, d);
      t.requests == s.requests && t.currentAnalysis == s.currentAnalysis &&
      Visible(t.view) == {ErrorState} && t.view.errorMessage == Plain(PageContentFailed)
  {
  }

  /**
   * The popup opening on tab `tab`: it remembers the tab, and analyses the
   * tab's address when it looks like a legal page, or shows manual input and
   * sends nothing.
   */
  function Start(s: Session, tab: Tab, response: Response, d: Dates): (t: Session)
    ensures t.currentTab == Some(tab)
    ensures IsTOSPage(tab.url) ==> t.requests == s.requests + [ByUrl(tab.url)]
    ensures IsTOSPage(tab.url) ==> t == AnalyzeUrl(s.(currentTab := Some(tab)), tab.url, response, d)
    ensures !IsTOSPage(tab.url) ==>
      t.requests == s.requests && Visible(t.view) == {ManualInputState} && t.currentAnalysis == s.currentAnalysis
  {
    var withTab := s.(currentTab := Some(tab));
    if IsTOSPage(tab.url) then AnalyzeUrl(withTab, tab.url, response, d)
    else withTab.(view := ShowManualInput(withTab.view))
  }

  /**
   * On a legal page the popup shows the loading panel while its one request
   * `{url}` is pending, and what it ends up showing is the service's answer to
   * that request handled from there.
   */
  lemma StartOnLegalPageLoads(s: Session, tab: Tab, response: Response, d: Dates)
    requires IsTOSPage(tab.url)
    ensures var pending := BeginAnalyzeUrl(s.(currentTab := Some(tab)), tab.url);
      Visible(pending.view) == {LoadingState} && pending.requests == s.requests + [ByUrl(tab.url)] &&
      pending.currentTab == Some(tab) && pending.currentAnalysis == s.currentAnalysis &&
      Start(s, tab, response, d) == FinishAnalyzeUrl(pending, response, d)
  {
  }

  /** `btn-manual-analyze` (and Enter in the address field): the trimmed input is analysed, an empty one ignored. */
  function ManualAnalyze(s: Session, input: string, response: Response, d: Dates): (t: Session)
    ensures AllSpace(input) ==> t == s
    ensures !AllSpace(input) ==> t == AnalyzeUrl(s, Trim(input), response, d)
  {
    var url := Trim(input);
    if url != "" then AnalyzeUrl(s, url, response, d) else s
  }

  /** `btn-manual-cancel`: back to what opening the popup on the active tab `tab` does, without remembering the tab. */
  function ManualCancel(s: Session, tab: Tab, response: Response, d: Dates): (t: Session)
    ensures t.currentTab == s.currentTab
    ensures !IsTOSPage(tab.url) ==> Visible(t.view) == {ManualInputState} && t.requests == s.requests
    ensures IsTOSPage(tab.url) ==> t == AnalyzeUrl(s, tab.url, response, d)
  {
    if IsTOSPage(tab.url) then AnalyzeUrl(s, tab.url, response, d)
    else s.(view := ShowManualInput(s.view))
  }

  /**
   * The cancel button does what opening the popup did, given the same tab and
   * answer, apart from remembering the tab.
   */
  lemma ManualCancelRepeatsStart(s: Session, tab: Tab, response: Response, d: Dates)
    requires s.currentTab == Some(tab)
    ensures ManualCancel(s, tab, response, d) == Start(s, tab, response, d)
  {
    assert s.(currentTab := Some(tab)) == s;
  }

  /** `btn-analyze-url` and the "Enter URL Manually" button of the auth prompt. */
  function ShowManual(s: Session): (t: Session)
    ensures Visible(t.view) == {ManualInputState}
    ensures t.(view := s.view) == s
  {
    s.(view := ShowManualInput(s.view))
  }

  /**
   * `btn-try-manual`: its listener shows manual input; after an auth error its
   * `onclick`, which runs after the listener, analyses the page's text, and the
   * loading panel that starts with replaces the manual input at once.
   */
  function ClickTryButton(s: Session, tab: Tab, extraction: Extraction, response: Response, d: Dates): (t: Session)
    ensures s.view.tryButton == TryManually ==> t == ShowManual(s)
    ensures s.view.tryButton == AnalyzeThisPage ==> t == AnalyzePageText(s, tab, extraction, response, d)
  {
    var manual := ShowManual(s);
    if s.view.tryButton == AnalyzeThisPage then
      assert ShowLoading(manual.view) == ShowLoading(s.view);
      AnalyzePageText(manual, tab, extraction, response, d)
    else manual
  }

  /** Once `showAuthError` has relabelled the try button, every later error keeps it. */
  lemma TryButtonSticks(s: Session, url: string, response: Response, d: Dates)
    requires s.view.tryButton == AnalyzeThisPage
    ensures AnalyzeUrl(s, url, response, d).view.tryButton == AnalyzeThisPage
  {
  }

  /** The feedback record for analysis `a`: its `content_hash` as `analysis_id`, its address and grade. */
  function FeedbackFor(a: AnalysisResult, helpful: bool, timestamp: string): (r: FeedbackRecord)
    ensures r.analysisId == a.contentHash && r.url == a.url && r.grade == a.grade
    ensures r.helpful == helpful && r.timestamp == timestamp
  {
    FeedbackRecord(a.contentHash, a.url, a.grade, helpful, timestamp)
  }

  /**
   * `submitFeedback(helpful)`: nothing without a current analysis; otherwise
   * one record about it is sent, and the thanks replace the buttons and the
   * prompt whatever became of the request (the answer is never read).
   */
  function SubmitFeedback(s: Session, helpful: bool, timestamp: string): (t: Session)
    ensures s.currentAnalysis.None? ==> t == s
    ensures s.currentAnalysis.Some? ==>
      t.feedback == s.feedback + [FeedbackFor(s.currentAnalysis.value, helpful, timestamp)] &&
      t.view == ShowFeedbackThanks(s.view) &&
      t.(feedback := s.feedback, view := s.view) == s
  {
    if s.currentAnalysis.None? then s
    else
      s.(feedback := s.feedback + [FeedbackFor(s.currentAnalysis.value, helpful, timestamp)],
         view := ShowFeedbackThanks(s.view))
  }

  /** Feedback reaches the thanks in one click, and a second click sends a second record. */
  lemma FeedbackAlwaysThanks(s: Session, helpful: bool, again: bool, timestamp: string, later: string)
    requires s.currentAnalysis.Some?
    ensures var t := SubmitFeedback(s, helpful, timestamp);
      t.view.feedbackThanks && !t.view.feedbackButtons && !t.view.feedbackPrompt &&
      Visible(t.view) == Visible(s.view) &&
      var a := s.currentAnalysis.value;
      |t.feedback| == |s.feedback| + 1 &&
      t.feedback[|s.feedback|].analysisId == a.contentHash && t.feedback[|s.feedback|].url == a.url &&
      t.feedback[|s.feedback|].grade == a.grade && t.feedback[|s.feedback|].helpful == helpful &&
      |SubmitFeedback(t, again, later).feedback| == |s.feedback| + 2
  {
  }

  /** `btn-feedback-skip`. */
  function SkipFeedback(s: Session): (t: Session)
    ensures !t.view.feedbackSection && Visible(t.view) == Visible(s.view)
    ensures t.(view := s.view) == s
  {
    s.(view := HideFeedbackButtons(s.view))
  }
}
