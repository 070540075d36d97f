/**
 * What the popup shows: four panels (`loading-state`, `error-state`,
 * `results-state`, `manual-input-state`), the content of the error and results
 * panels, the `btn-try-manual` button and the feedback area of the results
 * panel. Every function that shows a panel hides all four first, so once one
 * has run exactly one panel is visible.
 */
module Views {
  import opened Text
  import opened Analysis
  import opened Grades
  import opened TimeFormat

  datatype Panel = LoadingState | ErrorState | ResultsState | ManualInputState

  /**
   * The error panel's message: a plain text (`textContent`), or the prompt
   * `showAuthError` writes, holding the service's message, the question
   * whether to analyse the visible content instead and an "Enter URL Manually" button.
   */
  datatype ErrorMessage = Plain(text: string) | AuthPrompt(message: string)

  /**
   * `btn-try-manual`: as the page defines it, or relabelled "Analyze This Page"
   * with `analyzePageText` as its `onclick` by `showAuthError`. Nothing sets it back.
   */
  datatype TryButton = TryManually | AnalyzeThisPage

  /** A list section of the results panel: hidden, or its count text `(n)` and its items. */
  datatype ListView = Hidden | Listed(count: string, items: seq<string>)

  /**
   * The dates the results panel prints, as the browser's locale and clock give
   * them: the analysis date, the whole seconds since the content was last
   * verified and the verification date.
   */
  datatype Dates = Dates(analyzedOn: string, verifiedSecondsAgo: int, verifiedOn: string)

  /** The text fields of the results panel. */
  datatype ResultsView = ResultsView(
    pageUrl: string,
    meta: string,
    gradeLetter: string,
    gradeClass: string,
    score: string,
    gradeTitle: string,
    description: string,
    summary: string,
    redFlags: ListView,
    highlights: ListView)

  /** Everything of the popup's page the model tracks. */
  datatype View = View(
    loading: bool,
    error: bool,
    results: bool,
    manualInput: bool,
    errorMessage: ErrorMessage,
    tryButton: TryButton,
    resultsView: Option<ResultsView>,
    feedbackButtons: bool,
    feedbackPrompt: bool,
    feedbackThanks: bool,
    feedbackSection: bool)

  /** The panels whose `display` is `block`. */
  function Visible(v: View): set<Panel> {
    (if v.loading then {LoadingState} else {}) +
    (if v.error then {ErrorState} else {}) +
    (if v.results then {ResultsState} else {}) +
    (if v.manualInput then {ManualInputState} else {})
  }

  /** Only the panel flags differ between `v` and `w`. */
  predicate SameContent(v: View, w: View) {
    v.errorMessage == w.errorMessage && v.tryButton == w.tryButton && v.resultsView == w.resultsView &&
    v.feedbackButtons == w.feedbackButtons && v.feedbackPrompt == w.feedbackPrompt &&
    v.feedbackThanks == w.feedbackThanks && v.feedbackSection == w.feedbackSection
  }

  /** `hideAllStates`. */
  function HideAllStates(v: View): (w: View)
    ensures Visible(w) == {} && SameContent(v, w)
  {
    v.(loading := false, error := false, results := false, manualInput := false)
  }

  /** `showLoading`. */
  function ShowLoading(v: View): (w: View)
    ensures Visible(w) == {LoadingState} && SameContent(v, w)
  {
    HideAllStates(v).(loading := true)
  }

  /** `showManualInput`. */
  function ShowManualInput(v: View): (w: View)
    ensures Visible(w) == {ManualInputState} && SameContent(v, w)
  {
    HideAllStates(v).(manualInput := true)
  }

  /** `showError`: the message as the error panel's text; the try button keeps what it does. */
  function ShowError(v: View, message: string): (w: View)
    ensures Visible(w) == {ErrorState}
    ensures w.errorMessage == Plain(message)
    ensures SameContent(v, w.(errorMessage := v.errorMessage))
  {
    HideAllStates(v).(error := true, errorMessage := Plain(message))
  }

  /**
   * `showAuthError`: the service's message (printed `undefined` when it is
   * missing) in the prompt, and the try button turned into "Analyze This Page".
   */
  function ShowAuthError(v: View, message: Option<string>): (w: View)
    ensures Visible(w) == {ErrorState}
    ensures w.errorMessage.AuthPrompt? && w.tryButton == AnalyzeThisPage
    ensures message.Some? ==> w.errorMessage.message == message.value
    ensures message.None? ==> w.errorMessage.message == "undefined"
    ensures SameContent(v, w.(errorMessage := v.errorMessage, tryButton := v.tryButton))
  {
    HideAllStates(v).(error := true, errorMessage := AuthPrompt(TemplateText(message)), tryButton := AnalyzeThisPage)
  }

  /** The count and the items of a list section, or the section hidden when the list is empty. */
  function ListViewOf(items: seq<string>): (v: ListView)
    ensures v.Hidden? <==> items == []
    ensures v.Listed? ==>
      (v.items == items && |v.count| >= 3 &&
       v.count[0] == '(' && v.count[|v.count| - 1] == ')' &&
       AllDigits(v.count[1..|v.count| - 1]) && ParseNat(v.count[1..|v.count| - 1]) == |items|)
  {
    if items == [] then Hidden
    else
      var digits := NatToString(|items|);
      var count := "(" + digits + ")";
      assert count[1..|count| - 1] == digits;
      ParseNatToString(|items|);
      Listed(count, items)
  }

  /** A missing value assigned to `textContent` shows as nothing. */
  function ContentText(s: Option<string>): (text: string)
    ensures s.Some? ==> text == s.value
    ensures s.None? ==> text == ""
  {
    if s.Some? then s.value else ""
  }

  /** A verification date is printed when the analysis was served from the cache and has one. */
  predicate ShowsVerified(a: AnalysisResult) {
    a.cached && a.contentVerifiedAt.Some? && a.contentVerifiedAt.value != ""
  }

  /** The line under the URL: the analysis date, and how long ago the content was verified for a cached analysis. */
  function PageMeta(a: AnalysisResult, d: Dates): (meta: string)
    ensures |meta| >= 10 + |d.analyzedOn|
    ensures meta[..10] == "Analyzed: " && meta[10..10 + |d.analyzedOn|] == d.analyzedOn
    ensures !ShowsVerified(a) ==> |meta| == 10 + |d.analyzedOn|
    ensures ShowsVerified(a) ==> meta[10 + |d.analyzedOn|..] == " • Verified: " + RelativeTimeText(d.verifiedSecondsAgo, d.verifiedOn)
  {
    var analyzed := "Analyzed: " + d.analyzedOn;
    var meta := if ShowsVerified(a) then analyzed + (" • Verified: " + RelativeTimeText(d.verifiedSecondsAgo, d.verifiedOn)) else analyzed;
    assert meta[..|analyzed|] == analyzed;
    assert analyzed[..10] == "Analyzed: " && analyzed[10..] == d.analyzedOn;
    meta
  }

  /** The results panel `displayResults` fills in for analysis `a`. */
  function RenderResults(a: AnalysisResult, d: Dates): (r: ResultsView)
    ensures r.redFlags.Hidden? <==> a.redFlags == []
    ensures r.highlights.Hidden? <==> a.highlights == []
    ensures r.redFlags.Listed? ==> r.redFlags.items == a.redFlags
    ensures r.highlights.Listed? ==> r.highlights.items == a.highlights
    ensures r.gradeLetter == a.grade && r.summary == a.summary
    ensures r.pageUrl == ContentText(a.url) && r.meta == PageMeta(a, d)
    ensures r.score == IntToString(a.numericScore) + "/100"
    ensures r.description == GradeDescription(a.grade)
    ensures r.description == "" <==> a.grade !in KnownGrades
  {
    ResultsView(
      ContentText(a.url),
      PageMeta(a, d),
      a.grade,
      "grade-letter grade-" + LowerString(a.grade),
      IntToString(a.numericScore) + "/100",
      "Grade " + a.grade + " - " + GradeLabel(a.grade),
      GradeDescription(a.grade),
      a.summary,
      ListViewOf(a.redFlags),
      ListViewOf(a.highlights))
  }

  /**
   * The results panel names the grade: its title is `Grade X - <label>`, the
   * label being the table's for the five known grades and `Unknown` for any
   * other, and its style class is `grade-x` with the letter in lower case.
   */
  lemma GradeShownWithLabel(a: AnalysisResult, d: Dates)
    ensures var r := RenderResults(a, d);
      var t := |r.gradeTitle|;
      r.gradeTitle[..6 + |a.grade|] == "Grade " + a.grade &&
      (a.grade in KnownGrades ==> r.gradeTitle[6 + |a.grade|..] == " - " + Labels[a.grade]) &&
      (a.grade !in KnownGrades ==> r.gradeTitle[t - 7..] == "Unknown") &&
      r.gradeClass[..19] == "grade-letter grade-" && r.gradeClass[19..] == LowerString(a.grade)
  {
    var r := RenderResults(a, d);
    var head, tail := "Grade " + a.grade, " - " + GradeLabel(a.grade);
    AppendAssociates("Grade " + a.grade, " - ", GradeLabel(a.grade));
    assert r.gradeTitle == head + tail;
    assert r.gradeTitle[..|head|] == head && r.gradeTitle[|head|..] == tail;
    if a.grade !in KnownGrades {
      assert r.gradeTitle[|r.gradeTitle| - 7..] == tail[|tail| - 7..];
    }
    assert r.gradeClass == "grade-letter grade-" + LowerString(a.grade);
  }

  /** `displayResults`: the results panel alone, filled in for `a`; the error panel and the feedback area keep their content. */
  function DisplayResults(v: View, a: AnalysisResult, d: Dates): (w: View)
    ensures Visible(w) == {ResultsState}
    ensures w.resultsView == Some(RenderResults(a, d))
    ensures SameContent(v, w.(resultsView := v.resultsView))
  {
    HideAllStates(v).(results := true, resultsView := Some(RenderResults(a, d)))
  }

  /** `showFeedbackThanks`: the buttons and the prompt hidden, the thanks shown; the panels stay as they are. */
  function ShowFeedbackThanks(v: View): (w: View)
    ensures !w.feedbackButtons && !w.feedbackPrompt && w.feedbackThanks
    ensures Visible(w) == Visible(v) && w.feedbackSection == v.feedbackSection
    ensures w.errorMessage == v.errorMessage && w.tryButton == v.tryButton && w.resultsView == v.resultsView
  {
    v.(feedbackButtons := false, feedbackPrompt := false, feedbackThanks := true)
  }

  /** `hideFeedbackButtons`: the whole feedback section hidden. */
  function HideFeedbackButtons(v: View): (w: View)
    ensures !w.feedbackSection && Visible(w) == Visible(v)
    ensures w.(feedbackSection := v.feedbackSection) == v
  {
    v.(feedbackSection := false)
  }
}
