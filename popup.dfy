/**
 * The popup's script as an object: the panels and buttons it switches, the
 * analysis and tab it remembers (`currentAnalysis`, `currentTab`), and the
 * requests it has sent, updated in place by its handlers. Each handler runs to
 * its end with the answers it awaits given as arguments, and is proved to
 * leave the popup in the state the matching transition of `PopupSession` describes.
 */
module Popup {
  import opened Text
  import opened Analysis
  import opened Classifier
  import opened Views
  import opened PopupSession
  import opened TextReport
  import opened PdfReport
  import opened ReportFiles

  class Popup {
    var loadingShown: bool
    var errorShown: bool
    var resultsShown: bool
    var manualInputShown: bool
    var errorMessage: ErrorMessage
    var tryButton: TryButton
    var resultsView: Option<ResultsView>
    var feedbackButtonsShown: bool
    var feedbackPromptShown: bool
    var feedbackThanksShown: bool
    var feedbackSectionShown: bool
    var currentAnalysis: Option<AnalysisResult>
    var currentTab: Option<Tab>
    var requests: seq<AnalyzeRequest>
    var feedbackSent: seq<FeedbackRecord>

    /** The state of the popup as a value. */
    function Snapshot(): Session
      reads this
    {
      Session(
        View(loadingShown, errorShown, resultsShown, manualInputShown, errorMessage, tryButton, resultsView,
             feedbackButtonsShown, feedbackPromptShown, feedbackThanksShown, feedbackSectionShown),
        currentAnalysis, currentTab, requests, feedbackSent)
    }

    /**
     * The popup before its script runs: no panel shown yet, the feedback
     * buttons and prompt in place, no analysis, no tab, nothing sent.
     */
    constructor()
      ensures Visible(Snapshot().view) == {}
      ensures currentAnalysis.None? && currentTab.None? && requests == [] && feedbackSent == []
      ensures tryButton == TryManually && feedbackButtonsShown && feedbackPromptShown && !feedbackThanksShown
    {
      loadingShown, errorShown, resultsShown, manualInputShown := false, false, false, false;
      errorMessage := Plain("");
      tryButton := TryManually;
      resultsView := None;
      feedbackButtonsShown, feedbackPromptShown, feedbackThanksShown, feedbackSectionShown := true, true, false, true;
      currentAnalysis := None;
      currentTab := None;
      requests := [];
      feedbackSent := [];
    }

    method HideAllStates()
      modifies this
      ensures Snapshot() == old(Snapshot()).(view := Views.HideAllStates(old(Snapshot()).view))
    {
      loadingShown := false;
      errorShown := false;
      resultsShown := false;
      manualInputShown := false;
    }

    method ShowLoading()
      modifies this
      ensures Snapshot() == old(Snapshot()).(view := Views.ShowLoading(old(Snapshot()).view))
    {
      HideAllStates();
      loadingShown := true;
    }

    method ShowError(message: string)
      modifies this
      ensures Snapshot() == old(Snapshot()).(view := Views.ShowError(old(Snapshot()).view, message))
    {
      HideAllStates();
      errorShown := true;
      errorMessage := Plain(message);
    }

    method ShowAuthError(message: Option<string>)
      modifies this
      ensures Snapshot() == old(Snapshot()).(view := Views.ShowAuthError(old(Snapshot()).view, message))
    {
      HideAllStates();
      errorShown := true;
      errorMessage := AuthPrompt(TemplateText(message));
      tryButton := AnalyzeThisPage;
    }

    method ShowManualInput()
      modifies this
      ensures Snapshot() == ShowManual(old(Snapshot()))
    {
      HideAllStates();
      manualInputShown := true;
    }

    /** One list of the results panel, its items appended one `li` at a time. */
    static method FillList(items: seq<string>) returns (list: ListView)
      ensures list == ListViewOf(items)
    {
      if |items| > 0 {
        var shown: seq<string> := [];
        for i := 0 to |items|
          invariant shown == items[..i]
        {
          shown := shown + [items[i]];
        }
        assert items[..|items|] == items;
        list := Listed("(" + NatToString(|items|) + ")", shown);
      } else {
        list := Hidden;
      }
    }

    method DisplayResults(a: AnalysisResult, d: Dates)
      modifies this
      ensures Snapshot() == old(Snapshot()).(view := Views.DisplayResults(old(Snapshot()).view, a, d))
    {
      HideAllStates();
      ghost var hidden := Snapshot();
      resultsShown := true;
      var redFlags := FillList(a.redFlags);
      var highlights := FillList(a.highlights);
      resultsView := Some(ResultsView(
        ContentText(a.url),
        PageMeta(a, d),
        a.grade,
        "grade-letter grade-" + LowerString(a.grade),
        IntToString(a.numericScore) + "/100",
        "Grade " + a.grade + " - " + Grades.GradeLabel(a.grade),
        Grades.GradeDescription(a.grade),
        a.summary,
        redFlags,
        highlights));
      assert resultsView == Some(RenderResults(a, d));
      assert Snapshot() == hidden.(view := hidden.view.(results := true, resultsView := resultsView));
    }

    /** `analyzeURL` after its `await`, the service having answered `response`. */
    method FinishAnalyzeUrl(response: Response, d: Dates)
      modifies this
      ensures Snapshot() == PopupSession.FinishAnalyzeUrl(old(Snapshot()), response, d)
    {
      match response {
        case Ok(data) =>
          currentAnalysis := Some(data);
          DisplayResults(data, d);
        case NotOk(message, suggestion) =>
          if suggestion == Some(AuthSuggestion) {
            ShowAuthError(message);
          } else {
            ShowError(OrDefault(message, AnalyzeFailed));
          }
        case Thrown =>
          ShowError(ConnectionFailed);
      }
    }

    /** `analyzeURL(url)`, the service answering `response`. */
    method AnalyzeUrl(url: string, response: Response, d: Dates)
      modifies this
      ensures Snapshot() == PopupSession.AnalyzeUrl(old(Snapshot()), url, response, d)
    {
      ShowLoading();
      requests := requests + [ByUrl(url)];
      assert Snapshot() == BeginAnalyzeUrl(old(Snapshot()), url);
      FinishAnalyzeUrl(response, d);
    }

    /** `analyzePageText` after the service has answered `response` to the text it was sent. */
    method FinishAnalyzeText(response: Response, d: Dates)
      modifies this
      ensures Snapshot() == PopupSession.FinishAnalyzeText(old(Snapshot()), response, d)
    {
      match response {
        case Ok(data) =>
          currentAnalysis := Some(data);
          DisplayResults(data, d);
        case NotOk(message, _) =>
          ShowError(OrDefault(message, ContentAnalyzeFailed));
        case Thrown =>
          ShowError(PageContentFailed);
      }
    }

    /** `analyzePageText`, on the active tab `tab`, the extraction script giving `extraction`. */
    method AnalyzePageText(tab: Tab, extraction: Extraction, response: Response, d: Dates)
      modifies this
      ensures Snapshot() == PopupSession.AnalyzePageText(old(Snapshot()), tab, extraction, response, d)
    {
      ghost var s0 := old(Snapshot());
      ShowLoading();
      ghost var loading := Snapshot();
      assert loading == s0.(view := Views.ShowLoading(s0.view));
      if extraction.ExtractionThrown? {
        ShowError(PageContentFailed);
        return;
      }
      var pageText := if extraction.bodyText.Some? then Some(Prefix(extraction.bodyText.value, MaxPageText)) else None;
      assert pageText == PageText(extraction);
      if pageText.None? || |pageText.value| < MinPageText {
        ShowError(TooLittleContent);
        return;
      }
      requests := requests + [ByText(pageText.value, tab.url)];
      assert Snapshot() == loading.(requests := loading.requests + [ByText(pageText.value, tab.url)]);
      FinishAnalyzeText(response, d);
    }

    /** The `DOMContentLoaded` handler, the active tab being `tab`. */
    method Start(tab: Tab, response: Response, d: Dates)
      modifies this
      ensures Snapshot() == PopupSession.Start(old(Snapshot()), tab, response, d)
    {
      currentTab := Some(tab);
      assert Snapshot() == old(Snapshot()).(currentTab := Some(tab));
      if IsTOSPage(tab.url) {
        AnalyzeUrl(tab.url, response, d);
      } else {
        ShowManualInput();
      }
    }

    /** `btn-manual-analyze`, the address field holding `input`. */
    method ManualAnalyze(input: string, response: Response, d: Dates)
      modifies this
      ensures Snapshot() == PopupSession.ManualAnalyze(old(Snapshot()), input, response, d)
    {
      var url := Trim(input);
      if url != "" {
        AnalyzeUrl(url, response, d);
      }
    }

    /** `btn-manual-cancel`, the active tab being `tab`. */
    method ManualCancel(tab: Tab, response: Response, d: Dates)
      modifies this
      ensures Snapshot() == PopupSession.ManualCancel(old(Snapshot()), tab, response, d)
    {
      if IsTOSPage(tab.url) {
        AnalyzeUrl(tab.url, response, d);
      } else {
        ShowManualInput();
      }
    }

    /** `btn-try-manual`: its listener, then the `onclick` that `showAuthError` may have set. */
    method ClickTryButton(tab: Tab, extraction: Extraction, response: Response, d: Dates)
      modifies this
      ensures Snapshot() == PopupSession.ClickTryButton(old(Snapshot()), tab, extraction, response, d)
    {
      ShowManualInput();
      if tryButton == AnalyzeThisPage {
        AnalyzePageText(tab, extraction, response, d);
      }
    }

    method ShowFeedbackThanks()
      modifies this
      ensures Snapshot() == old(Snapshot()).(view := Views.ShowFeedbackThanks(old(Snapshot()).view))
    {
      feedbackButtonsShown := false;
      feedbackPromptShown := false;
      feedbackThanksShown := true;
    }

    /** `submitFeedback(helpful)` at time `timestamp`. */
    method SubmitFeedback(helpful: bool, timestamp: string)
      modifies this
      ensures Snapshot() == PopupSession.SubmitFeedback(old(Snapshot()), helpful, timestamp)
    {
      if currentAnalysis.None? {
        return;
      }
      var feedbackData := FeedbackFor(currentAnalysis.value, helpful, timestamp);
      feedbackSent := feedbackSent + [feedbackData];
      ShowFeedbackThanks();
    }

    /** `btn-feedback-skip`. */
    method SkipFeedback()
      modifies this
      ensures Snapshot() == PopupSession.SkipFeedback(old(Snapshot()))
    {
      feedbackSectionShown := false;
    }

    /** `exportToText` on the current analysis: nothing without one. */
    method ExportText(analyzedDate: string, nowMillis: nat) returns (file: Option<Export>)
      ensures currentAnalysis.None? <==> file.None?
      ensures currentAnalysis.Some? ==>
        file == Some(TextFile(TextFileName(nowMillis), ReportText(currentAnalysis.value, analyzedDate)))
    {
      if currentAnalysis.None? {
        return None;
      }
      var content := ExportToText(currentAnalysis.value, analyzedDate);
      file := Some(TextFile(TextFileName(nowMillis), content));
    }

    /** `exportToPDF` on the current analysis: nothing without one. */
    method ExportPdf(size: PageSize, wrap: Wrap, analyzedDate: string,
                     jsPdfLoaded: bool, hostname: Option<string>, isoNow: string, nowMillis: nat)
      returns (file: Option<Export>)
      ensures currentAnalysis.None? <==> file.None?
      ensures currentAnalysis.Some? ==>
        file == Some(PdfExport(currentAnalysis.value, size, wrap, analyzedDate, jsPdfLoaded, hostname, isoNow, nowMillis))
    {
      if currentAnalysis.None? {
        return None;
      }
      var pdf := ExportToPdf(currentAnalysis.value, size, wrap, analyzedDate, jsPdfLoaded, hostname, isoNow, nowMillis);
      file := Some(pdf);
    }
  }
}
