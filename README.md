# TOS Report Card popup, modelled in Dafny

The TOS Report Card browser extension grades the terms of service and privacy
policy of a site. Its popup (`extension/popup/popup.js`) does four things:

- it decides whether the active tab's address looks like a legal page (`isTOSPage`);
- it asks the grading service for an analysis of that address, or of the page's visible text;
- it shows one of four panels: loading, error, results or manual input;
- it lets the user rate the analysis and export it as a PDF or as plain text.

This project models that script and proves what it promises.

- `Classifier` (classifier.dfy): the nine case-insensitive patterns of
  `isTOSPage`. Each pattern is a rule made of character classes and an optional
  `\b`, with a left-to-right search. `IsTOSPage` is proved equal to "some
  pattern matches at some position". The classifier is proved to ignore case.
  Worked examples are included, among them `/TOS` and `/tossed`.
- `Analysis` (analysis.dfy): the data exchanged with the service and the
  browser. This covers an analysis result, the outcome of a `fetch` (ok, not ok
  with `message`/`suggestion`, or thrown), the active tab and the outcome of the
  text extraction script. It also covers JavaScript's `a || b` on strings and a
  missing value printed inside a template literal.
- `Grades` (grades.dfy): the label, description and PDF colour tables, keyed by grade letter.
- `TimeFormat` (timeformat.dfy): the buckets of `formatRelativeTime`.
- `Views` (views.dfy): the popup's page as a value. It holds the four panels,
  the error message, the try button, the results panel and the feedback area.
  Each `show…` function is proved to leave exactly one panel visible.
- `PopupSession` (session.dfy): each handler as a transition from one session
  (view, `currentAnalysis`, `currentTab`, requests sent, feedback sent) to the
  next. The service's and browser's answers are arguments.
- `Popup` (popup.dfy): the script as a class whose fields the handlers update
  in place. Each method is proved to reach exactly the state its
  `PopupSession` transition describes.
- `TextReport` (textreport.dfy): `exportToText`. The string is built
  section by section with loops over the lists. A read-back proof parses each
  list section into the items, numbered from 1.
- `PdfReport` (pdfreport.dfy): the layout of `exportToPDF`. A document is
  the sequence of its pages, each the sequence of its drawing calls. The
  methods follow the source's cursor `yPos` and page breaks. The lemmas cover:
  - where the breaks happen;
  - that every list item starts above the break line or at the top margin;
  - that every page carries exactly one footer `Page i of N`;
  - that the items come out in list order;
  - that the PDF and the text report list the same items.
- `ReportFiles` (files.dfy): the file names, the host sanitiser and the text fallback of the PDF export.

## A long summary runs off the first page

The script never measures the summary before drawing it
(`extension/popup/popup.js:418-422`). It only compares the cursor with fixed
thresholds:
- after the summary, it starts a new page when the cursor is below `pageHeight - 60`;
- before the highlights heading, it does the same;
- before each list item, it starts a new page when the cursor is below `pageHeight - 40`.

So the summary is always drawn on page 1, however long it is:
- `PdfReport.SummaryAlwaysOnFirstPage` proves that the summary is always drawn on page 1, 117 + 4 per URL line from the top;
- `PdfReport.LongSummaryOverrunsA4` proves that on A4 a summary of 37 lines or more has its last line below the bottom edge, counting 5 per line as the script's own cursor arithmetic does.

A list item that is taller than the space left on the page also overruns it, for the same reason.

## Model

| member | source | states |
|---|---|---|
| Classifier.IsTOSPage | extension/popup/popup.js:27-41 | true exactly when one of the nine patterns matches at some position of the address |
| Classifier.Some | extension/popup/popup.js:40 | `some` over the patterns is true exactly when one of them matches |
| Classifier.Test | extension/popup/popup.js:40 | `pattern.test(url)` is true exactly when the pattern matches at some position |
| Classifier.TestFrom | extension/popup/popup.js:40 | the search from position i finds a match exactly when one starts at or after i |
| Classifier.IsTOSPageIgnoresCase | extension/popup/popup.js:28-38 | two addresses that are equal up to the case of their letters are classified alike (the `i` flag) |
| Classifier.IsTOSPageOfLowerAndUpper | extension/popup/popup.js:28-38 | lower-casing or upper-casing an address does not change its classification |
| Classifier.PrivacyPolicyExample | extension/popup/popup.js:30 | `https://example.com/privacy-policy` is recognised |
| Classifier.UpperCaseTosExample | extension/popup/popup.js:33 | `https://x.com/TOS` is recognised |
| Classifier.TossedExample | extension/popup/popup.js:33 | `https://x.com/tossed` is not recognised: `\b` rejects `/tos` followed by a letter |
| Analysis.OrDefault | extension/popup/popup.js:64 | JavaScript's `or` of the message and the default is the default exactly when the message is missing, empty or equal to it, and otherwise the message |
| Grades.GradeLabel | extension/popup/popup.js:550-559 | the table's label for A, B, C, D and F, and `Unknown` exactly for any other key |
| Grades.GradeDescription | extension/popup/popup.js:561-570 | the table's description for the five grades, and the empty string exactly for any other key |
| Grades.LabelsAndDescriptionsDistinguishGrades | extension/popup/popup.js:550-570 | no two grades share a label or a description |
| Grades.GradeColor | extension/popup/popup.js:390-398 | teal exactly for A and B, amber for C, orange for D, red for F, and black for any other key; always a valid RGB colour |
| TimeFormat.RelativeBucket | extension/popup/popup.js:580-586 | under a minute, whole minutes below an hour, whole hours below a day, or the date; the bucket brackets the elapsed seconds |
| TimeFormat.RelativeTimeText | extension/popup/popup.js:580-587 | `Just now` under a minute, the formatted date from a day on, and a number first in between |
| TimeFormat.RelativeTimeTextRoundTrip | extension/popup/popup.js:584-585 | the number before `m ago` / `h ago` reads back as the whole minutes or hours elapsed |
| Text.Trim | extension/popup/popup.js:271 | a slice of the input with only white space cut off before and after it; empty exactly when the input is all white space, and otherwise with no white space at either end |
| Views.HideAllStates | extension/popup/popup.js:242-247 | no panel is visible; nothing else changes |
| Views.ShowLoading | extension/popup/popup.js:132-135 | exactly the loading panel is visible; nothing else changes |
| Views.ShowManualInput | extension/popup/popup.js:236-239 | exactly the manual input panel is visible; nothing else changes |
| Views.ShowError | extension/popup/popup.js:138-142 | exactly the error panel is visible, with the message as its text; the try button keeps its role |
| Views.ShowAuthError | extension/popup/popup.js:145-170 | exactly the error panel is visible, with the prompt holding the service's message (`undefined` when it is missing), and the try button becomes "Analyze This Page" |
| Views.ListViewOf | extension/popup/popup.js:203-216 | the list section is hidden exactly when the list is empty; otherwise it shows the items and a count `(n)` that reads back as their number |
| Views.PageMeta | extension/popup/popup.js:180-187 | `Analyzed: <date>`, followed by ` • Verified: <relative time>` exactly for a cached analysis with a verification date |
| Views.RenderResults | extension/popup/popup.js:173-233 | the address (nothing when missing), the meta line, the letter, the score `n/100`, the description, the summary and both lists come from the analysis; each list is hidden exactly when it is empty; the description is empty exactly for an unknown grade |
| Views.GradeShownWithLabel | extension/popup/popup.js:190-196 | the title is `Grade X - <label>` (`Unknown` for an unknown grade), and the class is `grade-letter grade-x` with the letter in lower case |
| Views.DisplayResults | extension/popup/popup.js:173-233 | exactly the results panel is visible, filled in for the analysis; nothing else changes |
| Views.ShowFeedbackThanks | extension/popup/popup.js:327-331 | the buttons and the prompt are hidden and the thanks shown; the panels stay as they are |
| Views.HideFeedbackButtons | extension/popup/popup.js:334-336 | the feedback section is hidden and nothing else changes |
| PopupSession.Prefix | extension/popup/popup.js:128 | `substring(0, n)` is a prefix of the text, of length `min(length, n)` |
| PopupSession.BeginAnalyzeUrl | extension/popup/popup.js:44-54 | while the request is pending, the loading panel alone is shown and the request `{url}` has been sent |
| PopupSession.AnalyzeUrl | extension/popup/popup.js:44-76 | one request `{url}` is sent and exactly one panel ends up visible. Results show exactly on an ok answer, which becomes the current analysis; any other outcome leaves the current analysis and the results as they were. The auth prompt shows exactly on the `analyze_visible_content` suggestion; otherwise the message or the default is shown, or the connection message when the call throws |
| PopupSession.FinishAnalyzeText | extension/popup/popup.js:110-123 | results exactly on an ok answer and an error otherwise; no further request |
| PopupSession.AnalyzePageText | extension/popup/popup.js:79-124 | ends on the results or the error panel; the tab and the feedback are left alone |
| PopupSession.AnalyzePageTextTooShort | extension/popup/popup.js:91-96 | the text is too short exactly when the page gave none or fewer than 100 characters (the cut at 80000 never makes it too short); then no request is sent, the current analysis stays, and the "not enough content" error shows |
| PopupSession.AnalyzePageTextSends | extension/popup/popup.js:93-118 | with enough text, exactly one request is sent, holding the first 80000 characters and the tab's address. Results show exactly on an ok answer, which becomes the current analysis. Otherwise a plain error shows: the service's message, its default, or the page-content message when the call throws. The auth branch is never taken |
| PopupSession.AnalyzePageTextScriptFails | extension/popup/popup.js:120-123 | a failing extraction script sends nothing, keeps the analysis and shows the page-content message |
| PopupSession.Start | extension/popup/popup.js:9-20 | the tab is remembered. A legal-looking address is analysed with one request, and the outcome is `AnalyzeUrl`'s for that address and answer; any other address shows manual input and sends nothing |
| PopupSession.StartOnLegalPageLoads | extension/popup/popup.js:14-16 | on a legal page, the loading panel shows while the one request is pending, and `Start` ends in that pending state's handling of the service's answer |
| PopupSession.ManualAnalyze | extension/popup/popup.js:270-275 | an all-white-space input changes nothing; any other input analyses its trimmed address |
| PopupSession.ManualCancel | extension/popup/popup.js:277-284 | analyses the active tab's address when it looks legal, and otherwise shows manual input; the remembered tab is kept |
| PopupSession.ManualCancelRepeatsStart | extension/popup/popup.js:277-284 | cancelling does what opening the popup on the same tab did |
| PopupSession.ShowManual | extension/popup/popup.js:267 | exactly the manual input panel is visible and nothing else changes |
| PopupSession.ClickTryButton | extension/popup/popup.js:157-161 | the try button shows manual input; after an auth error, it analyses the page's text instead |
| PopupSession.TryButtonSticks | extension/popup/popup.js:157-161 | once relabelled, the try button keeps its new role through every later analysis |
| PopupSession.SubmitFeedback | extension/popup/popup.js:298-324 | nothing changes without a current analysis; otherwise one record is sent and the thanks are shown, whatever happens to the request |
| PopupSession.FeedbackAlwaysThanks | extension/popup/popup.js:309-323 | one click sends one record naming the analysis' `content_hash`, address and grade with the rating, shows the thanks and keeps the panels; a second click sends a second record |
| PopupSession.SkipFeedback | extension/popup/popup.js:260-262 | the feedback section is hidden and nothing else changes |
| Popup.Popup.constructor | extension/popup/popup.js:5-6 | no analysis, no tab, nothing sent; the feedback buttons are in place |
| Popup.Popup.HideAllStates | extension/popup/popup.js:242-247 | the fields become `Views.HideAllStates` of the old view |
| Popup.Popup.ShowLoading | extension/popup/popup.js:132-135 | the fields become `Views.ShowLoading` of the old view |
| Popup.Popup.ShowError | extension/popup/popup.js:138-142 | the fields become `Views.ShowError` of the old view |
| Popup.Popup.ShowAuthError | extension/popup/popup.js:145-170 | the fields become `Views.ShowAuthError` of the old view |
| Popup.Popup.ShowManualInput | extension/popup/popup.js:236-239 | the fields become `Views.ShowManualInput` of the old view |
| Popup.Popup.FillList | extension/popup/popup.js:207-213 | the `forEach` fills the list with exactly the items, in order (`Views.ListViewOf`) |
| Popup.Popup.DisplayResults | extension/popup/popup.js:173-233 | the fields become `Views.DisplayResults` of the old view |
| Popup.Popup.FinishAnalyzeUrl | extension/popup/popup.js:56-75 | the state becomes `PopupSession.FinishAnalyzeUrl` of the old state |
| Popup.Popup.AnalyzeUrl | extension/popup/popup.js:44-76 | the state becomes `PopupSession.AnalyzeUrl` of the old state |
| Popup.Popup.FinishAnalyzeText | extension/popup/popup.js:110-123 | the state becomes `PopupSession.FinishAnalyzeText` of the old state |
| Popup.Popup.AnalyzePageText | extension/popup/popup.js:79-124 | the state becomes `PopupSession.AnalyzePageText` of the old state |
| Popup.Popup.Start | extension/popup/popup.js:9-20 | the state becomes `PopupSession.Start` of the old state |
| Popup.Popup.ManualAnalyze | extension/popup/popup.js:270-275 | the state becomes `PopupSession.ManualAnalyze` of the old state |
| Popup.Popup.ManualCancel | extension/popup/popup.js:277-284 | the state becomes `PopupSession.ManualCancel` of the old state |
| Popup.Popup.ClickTryButton | extension/popup/popup.js:294 | the listener, then the `onclick` set by the auth prompt, reach `PopupSession.ClickTryButton` of the old state |
| Popup.Popup.ShowFeedbackThanks | extension/popup/popup.js:327-331 | the fields become `Views.ShowFeedbackThanks` of the old view |
| Popup.Popup.SubmitFeedback | extension/popup/popup.js:298-324 | the state becomes `PopupSession.SubmitFeedback` of the old state |
| Popup.Popup.SkipFeedback | extension/popup/popup.js:260-262 | the state becomes `PopupSession.SkipFeedback` of the old state |
| Popup.Popup.ExportText | extension/popup/popup.js:513-514 | nothing exactly without a current analysis; otherwise the text report of that analysis |
| Popup.Popup.ExportPdf | extension/popup/popup.js:339-340 | nothing exactly without a current analysis; otherwise the PDF export of that analysis |
| TextReport.AppendNumbered | extension/popup/popup.js:524-526 | the loop appends exactly the numbered lines of the items, in order |
| TextReport.AppendListSection | extension/popup/popup.js:522-528 | appends the section: nothing for an empty list; otherwise the title, the numbered lines and a blank line |
| TextReport.ExportToText | extension/popup/popup.js:513-538 | the accumulated text is the report: heading, URL, date, grade and score, summary, the non-empty lists, and the footer |
| TextReport.ParseNumberedOfNumbered | extension/popup/popup.js:525 | the line `n. item` reads back as n and the item |
| TextReport.ReadNumberedOfNumbering | extension/popup/popup.js:524-526 | the numbered lines read back as the pairs (k+1, item k), in list order |
| TextReport.SplitLinesOfLines | extension/popup/popup.js:523-527 | lines without newlines, each followed by a newline, split back into the same lines |
| TextReport.ListSectionReadsBack | extension/popup/popup.js:522-536 | for newline-free items, a section's lines are its title, then `1. item1`, `2. item2`, …, then a blank line, and they read back as the items in order |
| ReportFiles.SanitizeHost | extension/popup/popup.js:501 | same length; each ASCII letter or digit is kept, and every other character becomes `-` |
| ReportFiles.SanitizeHostIsSafe | extension/popup/popup.js:501 | the result holds only ASCII letters, digits and `-`, and sanitising it again changes nothing |
| ReportFiles.SanitizeHostMergesSeparators | extension/popup/popup.js:501 | hosts that differ only in separator characters get the same name |
| ReportFiles.DatePart | extension/popup/popup.js:502 | `split('T')[0]`: the longest prefix without `T`, stopping at the first `T` |
| ReportFiles.PdfFileName | extension/popup/popup.js:500-503 | `tos-report-card-`, then exactly `SanitizeHost` of the host, then `-`, the date part and `.pdf`; the host part holds only letters, digits and `-` |
| ReportFiles.PdfExportOutcome | extension/popup/popup.js:339-510 | the PDF is produced exactly when jsPDF is loaded and the address, if any, parses. Its name holds the sanitised host (`analysis` without an address) and the date; page i of N carries the footer `Page i of N`; its red flags and highlights are numbered from 1 in list order. Otherwise the download is the text report under the clock-based name |
| ReportFiles.ExportToPdf | extension/popup/popup.js:339-510 | the method's result is `PdfExport`: layout, footers and name, or the text fallback |
| PdfReport.PlaceItem | extension/popup/popup.js:442-451 | one item adds one page exactly when the cursor is below `pageHeight - 40` |
| PdfReport.PlaceItems | extension/popup/popup.js:442-451 | a list adds at most one page per item |
| PdfReport.RedFlagsPart | extension/popup/popup.js:431-454 | the red flags section adds at most one page per flag |
| PdfReport.HighlightsPart | extension/popup/popup.js:457-483 | the highlights section adds at most one page for its heading and one per item, and none for an empty list |
| PdfReport.Body | extension/popup/popup.js:425-483 | the layout pass yields between 1 and 2 + (number of flags) + (1 + number of highlights, when there are any) pages |
| PdfReport.DrawItem | extension/popup/popup.js:443-450 | one turn of the loop reaches `PlaceItem` |
| PdfReport.DrawItems | extension/popup/popup.js:442-451 | the `forEach` reaches `PlaceItems` |
| PdfReport.StampPages | extension/popup/popup.js:486-497 | the footer loop reaches `Stamp` |
| PdfReport.DrawFirstPage | extension/popup/popup.js:344-422 | the banner-to-summary drawing reaches `FirstPage` |
| PdfReport.DrawRedFlags | extension/popup/popup.js:431-454 | the red flags drawing reaches `RedFlagsPart` |
| PdfReport.DrawHighlights | extension/popup/popup.js:457-483 | the highlights drawing reaches `HighlightsPart` |
| PdfReport.RenderPdf | extension/popup/popup.js:339-497 | the pages drawn are `Document`: the layout pass, then the footers |
| PdfReport.FirstPageCursor | extension/popup/popup.js:362-422 | after the summary, there is one page and the cursor is at 127 + 4 per URL line + 5 per summary line |
| PdfReport.SummaryAlwaysOnFirstPage | extension/popup/popup.js:418-428 | the summary is drawn on page 1 at 117 + 4 per URL line, however long it is |
| PdfReport.LongSummaryOverrunsA4 | extension/popup/popup.js:418-422 | on A4, a summary of 37 or more lines is drawn on page 1 with its last line, 5 below the one before, below the bottom edge |
| PdfReport.SummaryBreak | extension/popup/popup.js:424-428 | a second page is started after the summary exactly when the cursor is below `pageHeight - 60`; the cursor then returns to the margin |
| PdfReport.SummaryBreakOnA4 | extension/popup/popup.js:425 | on A4, that break happens exactly when 4 per URL line plus 5 per summary line exceeds 110 |
| PdfReport.HighlightsBreak | extension/popup/popup.js:457-467 | the highlights heading `HIGHLIGHTS (n)` is drawn on a new page at the top margin exactly when the cursor is below `pageHeight - 60`, and otherwise on the current page at the cursor; earlier pages are kept |
| PdfReport.ItemBreak | extension/popup/popup.js:443-450 | a new page is started before an item exactly when the cursor is below `pageHeight - 40`; the item is drawn at the margin of the new page, or else at the cursor, and the cursor moves down 5 per line + 3 |
| PdfReport.BodyKeepsEarlierMarks | extension/popup/popup.js:425-483 | the lists never alter what the first page already holds |
| PdfReport.PlaceItemsDrawn | extension/popup/popup.js:442-451 | a list adds exactly its numbered items, in order, to its own section's texts, and nothing to the others |
| PdfReport.ListsInSourceOrder | extension/popup/popup.js:442-482 | read back in drawing order, the document's red flag texts are `1. flag1`, `2. flag2`, … and likewise for the highlights |
| PdfReport.ExportsListTheSameRedFlags | extension/popup/popup.js:442-451 | for every list, the text report's red flags section is `RED FLAGS:`, the red flag texts the PDF draws, one per line in drawing order, and a blank line; both leave it out for no flags |
| PdfReport.ExportsListTheSameHighlights | extension/popup/popup.js:473-482 | for every list, the text report's highlights section is `HIGHLIGHTS:`, the highlight texts the PDF draws, one per line in drawing order, and a blank line; both leave it out for no highlights |
| PdfReport.BodyLayout | extension/popup/popup.js:425-483 | every list item starts no lower than `pageHeight - 40` or at the top margin, every later page starts at the margin, and no footer is drawn yet |
| PdfReport.FooterOnEveryPage | extension/popup/popup.js:485-497 | page i of N carries exactly one footer, `… Page i of N`, as its last drawing call |
| PdfReport.DocumentItemsStartHigh | extension/popup/popup.js:443-446 | in the finished document, every list item starts no lower than `pageHeight - 40` or at the top margin |

## Left out

- The network and the browser are not modelled; what they return is an input to each handler:
  - the service's answer (`Response`);
  - the active tab;
  - the extraction script's outcome;
  - the clock (ISO time, milliseconds, seconds since verification);
  - the locale-formatted dates;
  - the host that `new URL(...)` parses (none when it throws);
  - whether jsPDF is loaded.
- Concurrency: each handler runs to its end with its awaited answers given. Two analyses in flight at once, and the order in which their answers arrive, are not modelled. Neither is the interval between an `await` and its answer, apart from `PopupSession.BeginAnalyzeUrl`.
- A request counts as sent even when `fetch` throws. The feedback endpoint's answer is never read, so it is left out.
- The page's initial visibility comes from `popup.html`, which is not part of this model. The constructor starts with no panel shown and the feedback buttons in place.
- `setupEventListeners` is the wiring of the handlers. Each handler is a method of its own. The Enter key (287-291) is the same as `btn-manual-analyze`.
- Only the content and roles that `innerHTML` sets are modelled: the auth prompt's message and the "Enter URL Manually" button. HTML injection through a message is not.
- The PDF export's button listener is commented out (line 266), so the popup cannot start a PDF export. `exportToPDF` is modelled as written and reached through `Popup.Popup.ExportPdf`.
- jsPDF is not modelled:
  - a page is its list of drawing calls;
  - `splitTextToSize` is the parameter `wrap`, of which only the line count is used; it does not see the font size, so the URL's wrapping at 9 points and the summary's at 10 are one function;
  - font sizes, weights and the rounded corners of the grade box are not recorded;
  - `doc.internal.pages.length - 1` is taken to be the page count.
- Text and encoding: JavaScript strings are UTF-16. The model counts characters, so `substring`, `length` and the sanitiser treat a surrogate pair as two characters only in the source. `toLowerCase` on the grade letter is modelled as ASCII case folding.
- Lookups and malformed data:
  - object lookups such as `labels[grade]` can find inherited keys like `constructor`; the model looks up only the five grades;
  - a missing `red_flags` or `highlights` list is treated as empty, as the popup does;
  - a missing grade makes `displayResults` throw at `gradeLetter.toLowerCase()` (line 193) after `currentAnalysis` is set, and a missing summary or score would show as nothing or `undefined/100`; the model assumes an ok answer carries all three.
- `console.error` logging is not modelled.
- `PopupSession.AnalyzePageText`: its own contract only says that it ends on the results or the error panel and keeps the tab and feedback. The per-case behaviour is stated by `AnalyzePageTextTooShort`, `AnalyzePageTextSends` and `AnalyzePageTextScriptFails`.
