/**
 * The PDF report (`exportToPDF`). One vertical cursor `yPos` walks down the
 * page while the sections are drawn in a fixed order; a new page is started,
 * and the cursor put back at the top margin, when the cursor has passed a
 * threshold: after the summary and before the highlights heading when it is
 * below `pageHeight - 60`, and before each red flag or highlight when it is
 * below `pageHeight - 40`. Once every section is drawn, a second pass stamps
 * "Page i of N" on every page.
 *
 * jsPDF itself is not modelled: a document is the sequence of its pages, each
 * the sequence of the drawing calls made on it, and `splitTextToSize` is the
 * parameter `wrap`, of which only the number of lines matters here.
 */
module PdfReport {
  import opened Text
  import opened Analysis
  import opened Grades
  import opened TextReport

  /** The parts of the report, in layout order, and the page footer. */
  datatype Section =
    | Banner | UrlField | DateField | GradeField | SummaryField
    | RedFlagsHeading | RedFlagItem | HighlightsHeading | HighlightItem | PageFooter

  /**
   * One drawing call: a filled rectangle, a text block at (x, y) that
   * `splitTextToSize` wrapped into `lines` lines, or a single line centred on
   * the page at height y.
   */
  datatype Mark =
    | Fill(section: Section, x: int, y: int, width: int, height: int, color: Rgb)
    | Print(section: Section, x: int, y: int, text: string, lines: nat, color: Rgb)
    | Centered(section: Section, y: int, text: string, color: Rgb)

  type Page = seq<Mark>

  type LineCount = n: nat | 1 <= n witness 1

  /**
   * `doc.splitTextToSize(text, width).length`: the lines `text` takes at
   * `width`, at least one. The font size in force is not a parameter: the URL
   * is wrapped at 9 points and the summary and the items at 10, and `Wrap`
   * stands for all of these measurements at once.
   */
  type Wrap = (string, int) -> LineCount

  /** The page size the document reports, in millimetres (A4 by default). */
  datatype PageSize = PageSize(width: int, height: int)

  const A4 := PageSize(210, 297)
  const Margin := 20

  const Purple := Rgb(124, 58, 237)
  const White := Rgb(255, 255, 255)
  const LightGray := Rgb(249, 250, 251)
  const Gray := Rgb(107, 114, 128)
  const FooterGray := Rgb(156, 163, 175)

  function MaxWidth(size: PageSize): int {
    size.width - Margin * 2
  }

  /** The text drawn in the URL field: the analysed address, or `N/A` when there is none. */
  function UrlText(a: AnalysisResult): string {
    OrDefault(a.url, "N/A")
  }

  // The layout pass, one step at a time.

  /** The pages drawn so far (the last one is current) and the cursor `yPos`. */
  datatype Cursor = Cursor(pages: seq<Page>, y: int)

  /** Draws `m` on the current page. */
  function Draw(c: Cursor, m: Mark): (d: Cursor)
    requires |c.pages| > 0
    ensures |d.pages| == |c.pages| && d.y == c.y
  {
    c.(pages := c.pages[|c.pages| - 1 := c.pages[|c.pages| - 1] + [m]])
  }

  /** `doc.addPage(); yPos = margin;` */
  function AddPage(c: Cursor): Cursor {
    Cursor(c.pages + [[]], Margin)
  }

  /** `if (yPos > limit) { doc.addPage(); yPos = margin; }` */
  function BreakBelow(c: Cursor, limit: int): Cursor {
    if c.y > limit then AddPage(c) else c
  }

  function Advance(c: Cursor, dy: int): Cursor {
    c.(y := c.y + dy)
  }

  /**
   * The first page, down to the summary: the banner, the URL, the date, the
   * grade box and the summary, with the cursor just below the summary.
   */
  function FirstPage(a: AnalysisResult, size: PageSize, wrap: Wrap, analyzedDate: string): Cursor {
    var maxWidth := MaxWidth(size);
    var c0 := Cursor([[Fill(Banner, 0, 0, size.width, 35, Purple),
                       Print(Banner, Margin, 22, "TOS REPORT CARD", 1, White)]], 50);
    var c1 := Advance(Draw(c0, Print(UrlField, Margin, c0.y, "URL:", 1, Black)), 5);
    var urlLines := wrap(UrlText(a), maxWidth);
    var c2 := Advance(Draw(c1, Print(UrlField, Margin, c1.y, UrlText(a), urlLines, Black)), urlLines * 4 + 8);
    var c3 := Advance(Draw(c2, Print(DateField, Margin, c2.y, "Analyzed: " + analyzedDate, 1, Black)), 12);
    var boxY := c3.y;
    var c4 := Draw(c3, Fill(GradeField, Margin, boxY, maxWidth, 25, LightGray));
    var c5 := Draw(c4, Print(GradeField, Margin + 5, boxY + 18, "Grade " + a.grade, 1, GradeColor(a.grade)));
    var c6 := Draw(c5, Print(GradeField, size.width - Margin - 25, boxY + 18, IntToString(a.numericScore) + "/100", 1, Gray));
    var c7 := Cursor(c6.pages, boxY + 35);
    var c8 := Advance(Draw(c7, Print(SummaryField, Margin, c7.y, "SUMMARY", 1, Black)), 7);
    var summaryLines := wrap(a.summary, maxWidth);
    Advance(Draw(c8, Print(SummaryField, Margin, c8.y, a.summary, summaryLines, Black)), summaryLines * 5 + 10)
  }

  /** One red flag or highlight: break if the cursor is below `pageHeight - 40`, then draw `n. item`. */
  function PlaceItem(c: Cursor, section: Section, index: nat, item: string, size: PageSize, wrap: Wrap): (d: Cursor)
    requires |c.pages| > 0
    ensures |d.pages| == |c.pages| + (if c.y > size.height - 40 then 1 else 0)
  {
    var b := BreakBelow(c, size.height - 40);
    var m := ItemMark(b.y, section, index, item, size, wrap);
    Advance(Draw(b, m), m.lines * 5 + 3)
  }

  /** The text call for item `index` of a list at height `y`: `n. item`, wrapped 5 mm narrower than the page. */
  function ItemMark(y: int, section: Section, index: nat, item: string, size: PageSize, wrap: Wrap): (m: Mark)
    ensures m.Print? && m.section == section && m.y == y && m.text == Numbered(index + 1, item)
  {
    var itemText := Numbered(index + 1, item);
    Print(section, Margin + 5, y, itemText, wrap(itemText, MaxWidth(size) - 5), Black)
  }

  /** The items of one list, numbered from 1, in list order (the `forEach` of the source). */
  function PlaceItems(c: Cursor, section: Section, items: seq<string>, size: PageSize, wrap: Wrap): (d: Cursor)
    requires |c.pages| > 0
    ensures |c.pages| <= |d.pages| <= |c.pages| + |items|
    decreases |items|
  {
    if items == [] then c
    else
      var n := |items| - 1;
      PlaceItem(PlaceItems(c, section, items[..n], size, wrap), section, n, items[n], size, wrap)
  }

  /** `RED FLAGS (n)` and the numbered flags, then 7 more; nothing when there are no flags. */
  function RedFlagsPart(c: Cursor, a: AnalysisResult, size: PageSize, wrap: Wrap): (d: Cursor)
    requires |c.pages| > 0
    ensures |c.pages| <= |d.pages| <= |c.pages| + |a.redFlags|
  {
    if a.redFlags == [] then c
    else
      var heading := "RED FLAGS (" + NatToString(|a.redFlags|) + ")";
      var h := Advance(Draw(c, Print(RedFlagsHeading, Margin, c.y, heading, 1, Red)), 7);
      Advance(PlaceItems(h, RedFlagItem, a.redFlags, size, wrap), 7)
  }

  /** A break if the cursor is below `pageHeight - 60`, `HIGHLIGHTS (n)` and the numbered highlights; nothing when there are none. */
  function HighlightsPart(c: Cursor, a: AnalysisResult, size: PageSize, wrap: Wrap): (d: Cursor)
    requires |c.pages| > 0
    ensures |c.pages| <= |d.pages| <= |c.pages| + (if a.highlights == [] then 0 else 1 + |a.highlights|)
  {
    if a.highlights == [] then c
    else
      var b := BreakBelow(c, size.height - 60);
      var heading := "HIGHLIGHTS (" + NatToString(|a.highlights|) + ")";
      var h := Advance(Draw(b, Print(HighlightsHeading, Margin, b.y, heading, 1, Teal)), 7);
      PlaceItems(h, HighlightItem, a.highlights, size, wrap)
  }

  /** The summary break: a new page after the summary when the cursor is below `pageHeight - 60`. */
  function AfterSummary(a: AnalysisResult, size: PageSize, wrap: Wrap, analyzedDate: string): Cursor {
    BreakBelow(FirstPage(a, size, wrap, analyzedDate), size.height - 60)
  }

  /**
   * The whole layout pass, before the footers. Every break check adds at most
   * one page: the one after the summary, the one before the highlights heading
   * and the one before each item.
   */
  function Body(a: AnalysisResult, size: PageSize, wrap: Wrap, analyzedDate: string): (c: Cursor)
    ensures 1 <= |c.pages| <= 2 + |a.redFlags| + (if a.highlights == [] then 0 else 1 + |a.highlights|)
  {
    HighlightsPart(RedFlagsPart(AfterSummary(a, size, wrap, analyzedDate), a, size, wrap), a, size, wrap)
  }

  // The footer pass.

  function FooterText(i: nat, total: nat): string {
    "Generated by TOS Report Card • tosreportcard.com • Page " + NatToString(i) + " of " + NatToString(total)
  }

  function FooterMark(i: nat, total: nat, size: PageSize): Mark {
    Centered(PageFooter, size.height - 10, FooterText(i, total), FooterGray)
  }

  /** Every page with its footer `Page i of N` added, N being the number of pages. */
  function Stamp(pages: seq<Page>, size: PageSize): (stamped: seq<Page>)
    ensures |stamped| == |pages|
    ensures forall k :: 0 <= k < |pages| ==> stamped[k] == pages[k] + [FooterMark(k + 1, |pages|, size)]
  {
    seq(|pages|, k requires 0 <= k < |pages| => pages[k] + [FooterMark(k + 1, |pages|, size)])
  }

  /** The finished document. */
  function Document(a: AnalysisResult, size: PageSize, wrap: Wrap, analyzedDate: string): seq<Page> {
    Stamp(Body(a, size, wrap, analyzedDate).pages, size)
  }

  /** One more item extends the layout of the items before it. */
  lemma PlaceItemsSnoc(c: Cursor, section: Section, items: seq<string>, n: nat, size: PageSize, wrap: Wrap)
    requires |c.pages| > 0 && n < |items|
    ensures PlaceItems(c, section, items[..n + 1], size, wrap)
      == PlaceItem(PlaceItems(c, section, items[..n], size, wrap), section, n, items[n], size, wrap)
  {
    assert items[..n + 1][..n] == items[..n];
  }

  // The layout as the source performs it.

  /** `doc.text(...)` on the current page. */
  function DrawOn(pages: seq<Page>, m: Mark): seq<Page>
    requires |pages| > 0
  {
    pages[|pages| - 1 := pages[|pages| - 1] + [m]]
  }

  /** One turn of the `forEach` over a list: the break check, the measurement and the drawing of the item. */
  method DrawItem(pages0: seq<Page>, y0: int, section: Section, index: nat, item: string, size: PageSize, wrap: Wrap)
    returns (pages: seq<Page>, yPos: int)
    requires |pages0| > 0
    ensures Cursor(pages, yPos) == PlaceItem(Cursor(pages0, y0), section, index, item, size, wrap)
  {
    pages, yPos := pages0, y0;
    if yPos > size.height - 40 {
      pages := pages + [[]];
      yPos := Margin;
    }
    var itemText := Numbered(index + 1, item);
    var lines := wrap(itemText, MaxWidth(size) - 5);
    pages := DrawOn(pages, Print(section, Margin + 5, yPos, itemText, lines, Black));
    yPos := yPos + lines * 5 + 3;
  }

  /** The `forEach` over one list. */
  method DrawItems(pages0: seq<Page>, y0: int, section: Section, items: seq<string>, size: PageSize, wrap: Wrap)
    returns (pages: seq<Page>, yPos: int)
    requires |pages0| > 0
    ensures Cursor(pages, yPos) == PlaceItems(Cursor(pages0, y0), section, items, size, wrap)
  {
    pages, yPos := pages0, y0;
    var index := 0;
    while index < |items|
      invariant 0 <= index <= |items|
      invariant Cursor(pages, yPos) == PlaceItems(Cursor(pages0, y0), section, items[..index], size, wrap)
    {
      PlaceItemsSnoc(Cursor(pages0, y0), section, items, index, size, wrap);
      pages, yPos := DrawItem(pages, yPos, section, index, items[index], size, wrap);
      index := index + 1;
    }
    assert items[..index] == items;
  }

  /** The footer loop: `setPage(i)` and the footer text, for i from 1 to the page count. */
  method StampPages(body: seq<Page>, size: PageSize) returns (pages: seq<Page>)
    ensures pages == Stamp(body, size)
  {
    pages := body;
    var totalPages := |pages|;
    var i := 1;
    while i <= totalPages
      invariant 1 <= i <= totalPages + 1 && |pages| == totalPages
      invariant forall k :: 0 <= k < i - 1 ==> pages[k] == body[k] + [FooterMark(k + 1, totalPages, size)]
      invariant forall k :: i - 1 <= k < totalPages ==> pages[k] == body[k]
    {
      pages := pages[i - 1 := pages[i - 1] + [FooterMark(i, totalPages, size)]];
      i := i + 1;
    }
  }

  /** `exportToPDF` from the banner down to the summary. */
  method DrawFirstPage(a: AnalysisResult, size: PageSize, wrap: Wrap, analyzedDate: string)
    returns (pages: seq<Page>, yPos: int)
    ensures Cursor(pages, yPos) == FirstPage(a, size, wrap, analyzedDate)
  {
    var maxWidth := size.width - Margin * 2;
    yPos := Margin;
    pages := [[Fill(Banner, 0, 0, size.width, 35, Purple), Print(Banner, Margin, 22, "TOS REPORT CARD", 1, White)]];
    yPos := 50;

    pages := DrawOn(pages, Print(UrlField, Margin, yPos, "URL:", 1, Black));
    yPos := yPos + 5;
    var urlLines := wrap(UrlText(a), maxWidth);
    pages := DrawOn(pages, Print(UrlField, Margin, yPos, UrlText(a), urlLines, Black));
    yPos := yPos + urlLines * 4 + 8;

    pages := DrawOn(pages, Print(DateField, Margin, yPos, "Analyzed: " + analyzedDate, 1, Black));
    yPos := yPos + 12;

    var gradeBoxY := yPos;
    pages := DrawOn(pages, Fill(GradeField, Margin, gradeBoxY, maxWidth, 25, LightGray));
    pages := DrawOn(pages, Print(GradeField, Margin + 5, gradeBoxY + 18, "Grade " + a.grade, 1, GradeColor(a.grade)));
    pages := DrawOn(pages, Print(GradeField, size.width - Margin - 25, gradeBoxY + 18, IntToString(a.numericScore) + "/100", 1, Gray));
    yPos := gradeBoxY + 35;

    pages := DrawOn(pages, Print(SummaryField, Margin, yPos, "SUMMARY", 1, Black));
    yPos := yPos + 7;
    var summaryLines := wrap(a.summary, maxWidth);
    pages := DrawOn(pages, Print(SummaryField, Margin, yPos, a.summary, summaryLines, Black));
    yPos := yPos + summaryLines * 5 + 10;
  }

  /** `exportToPDF`'s red flags section. */
  method DrawRedFlags(pages0: seq<Page>, y0: int, a: AnalysisResult, size: PageSize, wrap: Wrap)
    returns (pages: seq<Page>, yPos: int)
    requires |pages0| > 0
    ensures Cursor(pages, yPos) == RedFlagsPart(Cursor(pages0, y0), a, size, wrap)
  {
    pages, yPos := pages0, y0;
    if |a.redFlags| > 0 {
      var heading := "RED FLAGS (" + NatToString(|a.redFlags|) + ")";
      pages := DrawOn(pages, Print(RedFlagsHeading, Margin, yPos, heading, 1, Red));
      yPos := yPos + 7;
      pages, yPos := DrawItems(pages, yPos, RedFlagItem, a.redFlags, size, wrap);
      yPos := yPos + 7;
    }
  }

  /** `exportToPDF`'s highlights section, with the break before its heading. */
  method DrawHighlights(pages0: seq<Page>, y0: int, a: AnalysisResult, size: PageSize, wrap: Wrap)
    returns (pages: seq<Page>, yPos: int)
    requires |pages0| > 0
    ensures Cursor(pages, yPos) == HighlightsPart(Cursor(pages0, y0), a, size, wrap)
  {
    pages, yPos := pages0, y0;
    if |a.highlights| > 0 {
      if yPos > size.height - 60 {
        pages := pages + [[]];
        yPos := Margin;
      }
      var heading := "HIGHLIGHTS (" + NatToString(|a.highlights|) + ")";
      pages := DrawOn(pages, Print(HighlightsHeading, Margin, yPos, heading, 1, Teal));
      yPos := yPos + 7;
      pages, yPos := DrawItems(pages, yPos, HighlightItem, a.highlights, size, wrap);
    }
  }

  /** The drawing part of `exportToPDF`: the layout pass, section by section, then the footer pass. */
  method RenderPdf(a: AnalysisResult, size: PageSize, wrap: Wrap, analyzedDate: string) returns (pages: seq<Page>)
    ensures pages == Document(a, size, wrap, analyzedDate)
  {
    var yPos;
    pages, yPos := DrawFirstPage(a, size, wrap, analyzedDate);
    if yPos > size.height - 60 {
      pages := pages + [[]];
      yPos := Margin;
    }
    pages, yPos := DrawRedFlags(pages, yPos, a, size, wrap);
    pages, yPos := DrawHighlights(pages, yPos, a, size, wrap);
    pages := StampPages(pages, size);
  }

  // What the layout guarantees.

  /** The cursor after the summary: page 1 alone, 127 + 4 per URL line + 5 per summary line from the top. */
  lemma FirstPageCursor(a: AnalysisResult, size: PageSize, wrap: Wrap, analyzedDate: string)
    ensures var c := FirstPage(a, size, wrap, analyzedDate);
      |c.pages| == 1 &&
      c.y == 127 + 4 * wrap(UrlText(a), MaxWidth(size)) + 5 * wrap(a.summary, MaxWidth(size))
  {
  }

  /**
   * The summary is drawn on the first page at 117 + 4 per URL line, whatever
   * its length: nothing measures it before it is drawn, so a summary taller
   * than the rest of the page runs past the page's bottom edge.
   */
  lemma SummaryAlwaysOnFirstPage(a: AnalysisResult, size: PageSize, wrap: Wrap, analyzedDate: string)
    ensures var urlLines := wrap(UrlText(a), MaxWidth(size));
      var summaryLines := wrap(a.summary, MaxWidth(size));
      Print(SummaryField, Margin, 117 + 4 * urlLines, a.summary, summaryLines, Black)
        in Document(a, size, wrap, analyzedDate)[0]
  {
    var c := FirstPage(a, size, wrap, analyzedDate);
    var m := Print(SummaryField, Margin, 117 + 4 * wrap(UrlText(a), MaxWidth(size)), a.summary, wrap(a.summary, MaxWidth(size)), Black);
    assert c.pages[0][|c.pages[0]| - 1] == m;
    assert Body(a, size, wrap, analyzedDate).pages[0][|c.pages[0]| - 1] == m by {
      BodyKeepsEarlierMarks(a, size, wrap, analyzedDate);
    }
  }

  /**
   * On A4, a summary of 37 or more lines is still drawn on the first page, and
   * its last line, 5 below the one before as the cursor arithmetic counts
   * lines, lies below the bottom edge (297) of that page.
   */
  lemma LongSummaryOverrunsA4(a: AnalysisResult, wrap: Wrap, analyzedDate: string)
    requires wrap(a.summary, MaxWidth(A4)) >= 37
    ensures var m := Print(SummaryField, Margin, 117 + 4 * wrap(UrlText(a), MaxWidth(A4)), a.summary,
                           wrap(a.summary, MaxWidth(A4)), Black);
      m in Document(a, A4, wrap, analyzedDate)[0] && m.y + 5 * (m.lines - 1) > A4.height
  {
    SummaryAlwaysOnFirstPage(a, A4, wrap, analyzedDate);
  }

  /**
   * The break after the summary: a second page is started exactly when the
   * cursor below the summary lies below `pageHeight - 60`, and the cursor is then
   * back at the top margin.
   */
  lemma SummaryBreak(a: AnalysisResult, size: PageSize, wrap: Wrap, analyzedDate: string)
    ensures var below := 127 + 4 * wrap(UrlText(a), MaxWidth(size)) + 5 * wrap(a.summary, MaxWidth(size));
      var c := AfterSummary(a, size, wrap, analyzedDate);
      (|c.pages| == 2 <==> below > size.height - 60) &&
      (|c.pages| == 1 <==> below <= size.height - 60) &&
      (below > size.height - 60 ==> c.y == Margin && c.pages[1] == [])
  {
    FirstPageCursor(a, size, wrap, analyzedDate);
  }

  /** On A4 the summary break happens exactly when 4 per URL line and 5 per summary line exceed 110. */
  lemma SummaryBreakOnA4(a: AnalysisResult, wrap: Wrap, analyzedDate: string)
    ensures |AfterSummary(a, A4, wrap, analyzedDate).pages| == 2
      <==> 4 * wrap(UrlText(a), MaxWidth(A4)) + 5 * wrap(a.summary, MaxWidth(A4)) > 110
  {
    SummaryBreak(a, A4, wrap, analyzedDate);
  }

  /**
   * The break before a list item: a new page is started exactly when the cursor
   * lies below `pageHeight - 40`; the item is then drawn at the top margin of
   * the new page, and otherwise at the cursor.
   */
  lemma ItemBreak(c: Cursor, section: Section, index: nat, item: string, size: PageSize, wrap: Wrap)
    requires |c.pages| > 0
    ensures var d := PlaceItem(c, section, index, item, size, wrap);
      var n := |d.pages|;
      var lines := wrap(Numbered(index + 1, item), MaxWidth(size) - 5);
      var at := if c.y > size.height - 40 then Margin else c.y;
      (n == |c.pages| + 1 <==> c.y > size.height - 40) &&
      d.pages[n - 1] == (if c.y > size.height - 40 then [] else c.pages[n - 1]) +
        [Print(section, Margin + 5, at, Numbered(index + 1, item), lines, Black)] &&
      d.y == at + lines * 5 + 3
  {
  }

  /**
   * The break before the highlights heading: the heading is drawn on a new
   * page, at the top margin, exactly when the cursor lies below
   * `pageHeight - 60`, and otherwise on the current page at the cursor; the
   * pages drawn before are kept.
   */
  lemma HighlightsBreak(c: Cursor, a: AnalysisResult, size: PageSize, wrap: Wrap)
    requires |c.pages| > 0 && a.highlights != []
    ensures var d := HighlightsPart(c, a, size, wrap);
      var breaks := c.y > size.height - 60;
      var n := |c.pages| + (if breaks then 1 else 0);
      var at := if breaks then Margin else c.y;
      var heading := Print(HighlightsHeading, Margin, at, "HIGHLIGHTS (" + NatToString(|a.highlights|) + ")", 1, Teal);
      n <= |d.pages| &&
      (forall k :: 0 <= k < |c.pages| - 1 ==> d.pages[k] == c.pages[k]) &&
      c.pages[|c.pages| - 1] <= d.pages[|c.pages| - 1] &&
      (if breaks then [] else c.pages[n - 1]) + [heading] <= d.pages[n - 1]
  {
    var b := BreakBelow(c, size.height - 60);
    var heading := Print(HighlightsHeading, Margin, b.y, "HIGHLIGHTS (" + NatToString(|a.highlights|) + ")", 1, Teal);
    var h := Advance(Draw(b, heading), 7);
    var n := |b.pages|;
    assert h.pages[n - 1] == b.pages[n - 1] + [heading];
    assert forall k :: 0 <= k < n - 1 ==> h.pages[k] == b.pages[k];
    PlaceItemsExtends(h, HighlightItem, a.highlights, size, wrap);
  }

  /** The layout pass only appends: what a step has drawn stays where it is. */
  predicate Extends(c: Cursor, d: Cursor) {
    |c.pages| <= |d.pages| &&
    (forall k :: 0 <= k < |c.pages| - 1 ==> d.pages[k] == c.pages[k]) &&
    (|c.pages| > 0 ==> c.pages[|c.pages| - 1] <= d.pages[|c.pages| - 1])
  }

  lemma ExtendsTransitive(c: Cursor, d: Cursor, e: Cursor)
    requires Extends(c, d) && Extends(d, e)
    ensures Extends(c, e)
  {
    if |c.pages| > 0 {
      var n := |c.pages| - 1;
      if n < |d.pages| - 1 {
        assert e.pages[n] == d.pages[n];
      } else {
        assert c.pages[n] <= d.pages[n] <= e.pages[n];
      }
    }
  }

  lemma {:induction false} PlaceItemsExtends(c: Cursor, section: Section, items: seq<string>, size: PageSize, wrap: Wrap)
    requires |c.pages| > 0
    ensures Extends(c, PlaceItems(c, section, items, size, wrap))
    decreases |items|
  {
    if items != [] {
      var n := |items| - 1;
      var b := PlaceItems(c, section, items[..n], size, wrap);
      PlaceItemsExtends(c, section, items[..n], size, wrap);
      ExtendsTransitive(c, b, PlaceItem(b, section, n, items[n], size, wrap));
    }
  }

  lemma RedFlagsPartExtends(c: Cursor, a: AnalysisResult, size: PageSize, wrap: Wrap)
    requires |c.pages| > 0
    ensures Extends(c, RedFlagsPart(c, a, size, wrap))
  {
    if a.redFlags != [] {
      var heading := "RED FLAGS (" + NatToString(|a.redFlags|) + ")";
      var h := Advance(Draw(c, Print(RedFlagsHeading, Margin, c.y, heading, 1, Red)), 7);
      PlaceItemsExtends(h, RedFlagItem, a.redFlags, size, wrap);
      ExtendsTransitive(c, h, PlaceItems(h, RedFlagItem, a.redFlags, size, wrap));
    }
  }

  lemma HighlightsPartExtends(c: Cursor, a: AnalysisResult, size: PageSize, wrap: Wrap)
    requires |c.pages| > 0
    ensures Extends(c, HighlightsPart(c, a, size, wrap))
  {
    if a.highlights != [] {
      var b := BreakBelow(c, size.height - 60);
      var heading := "HIGHLIGHTS (" + NatToString(|a.highlights|) + ")";
      var h := Advance(Draw(b, Print(HighlightsHeading, Margin, b.y, heading, 1, Teal)), 7);
      assert Extends(c, b);
      assert Extends(b, h);
      PlaceItemsExtends(h, HighlightItem, a.highlights, size, wrap);
      ExtendsTransitive(c, b, h);
      ExtendsTransitive(c, h, PlaceItems(h, HighlightItem, a.highlights, size, wrap));
    }
  }

  /** The marks of the first page, down to the summary, stay first on page 1. */
  lemma BodyKeepsEarlierMarks(a: AnalysisResult, size: PageSize, wrap: Wrap, analyzedDate: string)
    ensures FirstPage(a, size, wrap, analyzedDate).pages[0] <= Body(a, size, wrap, analyzedDate).pages[0]
  {
    var c0 := FirstPage(a, size, wrap, analyzedDate);
    var c1 := AfterSummary(a, size, wrap, analyzedDate);
    var c2 := RedFlagsPart(c1, a, size, wrap);
    var c3 := HighlightsPart(c2, a, size, wrap);
    FirstPageCursor(a, size, wrap, analyzedDate);
    assert Extends(c0, c1);
    RedFlagsPartExtends(c1, a, size, wrap);
    HighlightsPartExtends(c2, a, size, wrap);
    ExtendsTransitive(c0, c1, c2);
    ExtendsTransitive(c0, c2, c3);
  }

  // Reading the document back: which texts were drawn for a section, in drawing order.

  /** The text `m` draws for `section`: none for a rectangle or for another section. */
  function MarkTexts(m: Mark, section: Section): seq<string> {
    if m.section != section then []
    else
      match m
      case Fill(_, _, _, _, _, _) => []
      case Print(_, _, _, text, _, _) => [text]
      case Centered(_, _, text, _) => [text]
  }

  /** The texts `marks` draw for `section`, in drawing order. */
  function TextsOf(marks: seq<Mark>, section: Section): seq<string> {
    if marks == [] then [] else TextsOf(marks[..|marks| - 1], section) + MarkTexts(marks[|marks| - 1], section)
  }

  /** Every drawing call of a document, page after page. */
  function Flatten(pages: seq<Page>): seq<Mark> {
    if pages == [] then [] else Flatten(pages[..|pages| - 1]) + pages[|pages| - 1]
  }

  /** The texts drawn so far for `section`. */
  function Drawn(c: Cursor, section: Section): seq<string> {
    TextsOf(Flatten(c.pages), section)
  }

  lemma {:induction false} TextsOfAppend(xs: seq<Mark>, ys: seq<Mark>, section: Section)
    ensures TextsOf(xs + ys, section) == TextsOf(xs, section) + TextsOf(ys, section)
    decreases |ys|
  {
    if ys == [] {
      assert xs + ys == xs;
    } else {
      var n := |ys| - 1;
      var all := xs + ys;
      assert all[..|all| - 1] == xs + ys[..n];
      assert all[|all| - 1] == ys[n];
      assert TextsOf(all, section) == TextsOf(xs + ys[..n], section) + MarkTexts(ys[n], section);
      TextsOfAppend(xs, ys[..n], section);
      assert TextsOf(ys, section) == TextsOf(ys[..n], section) + MarkTexts(ys[n], section);
      AppendAssociates(TextsOf(xs, section), TextsOf(ys[..n], section), MarkTexts(ys[n], section));
    }
  }

  lemma {:induction false} TextsOfNone(marks: seq<Mark>, section: Section)
    requires forall j :: 0 <= j < |marks| ==> marks[j].section != section
    ensures TextsOf(marks, section) == []
    decreases |marks|
  {
    if marks != [] {
      TextsOfNone(marks[..|marks| - 1], section);
    }
  }

  lemma DrawDrawn(c: Cursor, m: Mark, section: Section)
    requires |c.pages| > 0
    ensures Drawn(Draw(c, m), section) == Drawn(c, section) + MarkTexts(m, section)
  {
    var n := |c.pages| - 1;
    var d := Draw(c, m);
    assert d.pages[..n] == c.pages[..n];
    assert Flatten(d.pages) == Flatten(c.pages) + [m];
    assert (Flatten(c.pages) + [m])[..|Flatten(c.pages)|] == Flatten(c.pages);
  }

  lemma AddPageDrawn(c: Cursor, section: Section)
    ensures Drawn(AddPage(c), section) == Drawn(c, section)
  {
    var pages := c.pages + [[]];
    assert pages[..|pages| - 1] == c.pages;
    assert Flatten(pages) == Flatten(c.pages);
  }

  lemma BreakBelowDrawn(c: Cursor, limit: int, section: Section)
    ensures Drawn(BreakBelow(c, limit), section) == Drawn(c, section)
  {
    if c.y > limit {
      AddPageDrawn(c, section);
    }
  }

  /** Drawing `m` and moving the cursor adds the text of `m`, if any, and nothing else. */
  lemma DrawAdvanceDrawn(c: Cursor, m: Mark, dy: int, section: Section)
    requires |c.pages| > 0
    ensures Drawn(Advance(Draw(c, m), dy), section) == Drawn(c, section) + MarkTexts(m, section)
  {
    DrawDrawn(c, m, section);
  }

  /** An item adds its numbered line to the texts of its own section and nothing to the others. */
  lemma PlaceItemDrawn(c: Cursor, itemSection: Section, index: nat, item: string, size: PageSize, wrap: Wrap, section: Section)
    requires |c.pages| > 0
    ensures Drawn(PlaceItem(c, itemSection, index, item, size, wrap), section)
      == Drawn(c, section) + (if section == itemSection then [Numbered(index + 1, item)] else [])
  {
    var b := BreakBelow(c, size.height - 40);
    var m := ItemMark(b.y, itemSection, index, item, size, wrap);
    BreakBelowDrawn(c, size.height - 40, section);
    DrawAdvanceDrawn(b, m, m.lines * 5 + 3, section);
  }

  lemma NumberingSnoc(items: seq<string>)
    requires items != []
    ensures Numbering(items) == Numbering(items[..|items| - 1]) + [Numbered(|items|, items[|items| - 1])]
  {
  }

  lemma {:induction false} PlaceItemsDrawn(c: Cursor, itemSection: Section, items: seq<string>, size: PageSize, wrap: Wrap, section: Section)
    requires |c.pages| > 0
    ensures Drawn(PlaceItems(c, itemSection, items, size, wrap), section)
      == Drawn(c, section) + (if section == itemSection then Numbering(items) else [])
    decreases |items|
  {
    if items == [] {
      assert Numbering(items) == [];
    } else {
      var n := |items| - 1;
      var b := PlaceItems(c, itemSection, items[..n], size, wrap);
      PlaceItemsDrawn(c, itemSection, items[..n], size, wrap, section);
      PlaceItemDrawn(b, itemSection, n, items[n], size, wrap, section);
      NumberingSnoc(items);
    }
  }

  predicate IsListItem(section: Section) {
    section == RedFlagItem || section == HighlightItem
  }

  lemma FirstPageDrawn(a: AnalysisResult, size: PageSize, wrap: Wrap, analyzedDate: string, section: Section)
    requires IsListItem(section)
    ensures |FirstPage(a, size, wrap, analyzedDate).pages| == 1
    ensures Drawn(FirstPage(a, size, wrap, analyzedDate), section) == []
  {
    var c := FirstPage(a, size, wrap, analyzedDate);
    assert c.pages == [c.pages[0]];
    assert c.pages[..0] == [];
    assert Flatten(c.pages) == c.pages[0];
    assert forall j :: 0 <= j < |c.pages[0]| ==> c.pages[0][j].section in {Banner, UrlField, DateField, GradeField, SummaryField};
    TextsOfNone(c.pages[0], section);
  }

  lemma RedFlagsPartDrawn(c: Cursor, a: AnalysisResult, size: PageSize, wrap: Wrap, section: Section)
    requires |c.pages| > 0 && IsListItem(section)
    ensures Drawn(RedFlagsPart(c, a, size, wrap), section)
      == Drawn(c, section) + (if section == RedFlagItem then Numbering(a.redFlags) else [])
  {
    if a.redFlags != [] {
      var heading := Print(RedFlagsHeading, Margin, c.y, "RED FLAGS (" + NatToString(|a.redFlags|) + ")", 1, Red);
      DrawDrawn(c, heading, section);
      assert MarkTexts(heading, section) == [];
      var h := Advance(Draw(c, heading), 7);
      assert Drawn(h, section) == Drawn(c, section);
      PlaceItemsDrawn(h, RedFlagItem, a.redFlags, size, wrap, section);
      var placed := PlaceItems(h, RedFlagItem, a.redFlags, size, wrap);
      assert RedFlagsPart(c, a, size, wrap) == Advance(placed, 7);
      assert Drawn(Advance(placed, 7), section) == Drawn(placed, section);
    } else {
      assert Numbering(a.redFlags) == [];
    }
  }

  /** A heading followed by a numbered list adds the list's numbered items to their own section's texts. */
  lemma HeadedListDrawn(b: Cursor, heading: Mark, itemSection: Section, items: seq<string>, size: PageSize, wrap: Wrap, section: Section)
    requires |b.pages| > 0 && heading.section != section
    ensures Drawn(PlaceItems(Advance(Draw(b, heading), 7), itemSection, items, size, wrap), section)
      == Drawn(b, section) + (if section == itemSection then Numbering(items) else [])
  {
    var h := Advance(Draw(b, heading), 7);
    DrawAdvanceDrawn(b, heading, 7, section);
    assert Drawn(h, section) == Drawn(b, section);
    PlaceItemsDrawn(h, itemSection, items, size, wrap, section);
  }

  lemma HighlightsPartDrawn(c: Cursor, a: AnalysisResult, size: PageSize, wrap: Wrap, section: Section)
    requires |c.pages| > 0 && IsListItem(section)
    ensures Drawn(HighlightsPart(c, a, size, wrap), section)
      == Drawn(c, section) + (if section == HighlightItem then Numbering(a.highlights) else [])
  {
    if a.highlights != [] {
      var b := BreakBelow(c, size.height - 60);
      var heading := Print(HighlightsHeading, Margin, b.y, "HIGHLIGHTS (" + NatToString(|a.highlights|) + ")", 1, Teal);
      assert HighlightsPart(c, a, size, wrap) == PlaceItems(Advance(Draw(b, heading), 7), HighlightItem, a.highlights, size, wrap);
      BreakBelowDrawn(c, size.height - 60, section);
      HeadedListDrawn(b, heading, HighlightItem, a.highlights, size, wrap, section);
    } else {
      assert Numbering(a.highlights) == [];
    }
  }

  /** Adding one footer mark to every page adds nothing to the texts of any other section. */
  lemma {:induction false} FootersAddNoText(body: seq<Page>, stamped: seq<Page>, section: Section)
    requires section != PageFooter && |stamped| == |body|
    requires forall k :: 0 <= k < |body| ==>
      |stamped[k]| == |body[k]| + 1 && stamped[k] == body[k] + [stamped[k][|body[k]|]] &&
      stamped[k][|body[k]|].section == PageFooter
    ensures TextsOf(Flatten(stamped), section) == TextsOf(Flatten(body), section)
    decreases |body|
  {
    if body != [] {
      var n := |body| - 1;
      FootersAddNoText(body[..n], stamped[..n], section);
      var footer := stamped[n][|body[n]|];
      assert stamped[n] == body[n] + [footer];
      assert Flatten(stamped) == Flatten(stamped[..n]) + stamped[n];
      assert Flatten(body) == Flatten(body[..n]) + body[n];
      TextsOfAppend(Flatten(stamped[..n]), stamped[n], section);
      TextsOfAppend(Flatten(body[..n]), body[n], section);
      OtherMarkAddsNoText(body[n], footer, section);
    }
  }

  lemma OtherMarkAddsNoText(marks: seq<Mark>, m: Mark, section: Section)
    requires m.section != section
    ensures TextsOf(marks + [m], section) == TextsOf(marks, section)
  {
    assert (marks + [m])[..|marks|] == marks;
  }

  /** The two list parts, from a cursor that has drawn no list item yet, draw each list's numbered items. */
  lemma ListPartsDrawn(c: Cursor, a: AnalysisResult, size: PageSize, wrap: Wrap, section: Section)
    requires |c.pages| > 0 && IsListItem(section) && Drawn(c, section) == []
    ensures Drawn(HighlightsPart(RedFlagsPart(c, a, size, wrap), a, size, wrap), section)
      == if section == RedFlagItem then Numbering(a.redFlags) else Numbering(a.highlights)
  {
    var c2 := RedFlagsPart(c, a, size, wrap);
    RedFlagsPartDrawn(c, a, size, wrap, section);
    HighlightsPartDrawn(c2, a, size, wrap, section);
    if section == RedFlagItem {
      assert Drawn(c2, section) == Numbering(a.redFlags);
    } else {
      assert Drawn(c2, section) == [];
    }
  }

  lemma BodyDrawn(a: AnalysisResult, size: PageSize, wrap: Wrap, analyzedDate: string, section: Section)
    requires IsListItem(section)
    ensures Drawn(Body(a, size, wrap, analyzedDate), section)
      == if section == RedFlagItem then Numbering(a.redFlags) else Numbering(a.highlights)
  {
    var c0 := FirstPage(a, size, wrap, analyzedDate);
    FirstPageDrawn(a, size, wrap, analyzedDate, section);
    BreakBelowDrawn(c0, size.height - 60, section);
    ListPartsDrawn(AfterSummary(a, size, wrap, analyzedDate), a, size, wrap, section);
  }

  lemma DocumentDrawn(a: AnalysisResult, size: PageSize, wrap: Wrap, analyzedDate: string, section: Section)
    requires section != PageFooter
    ensures TextsOf(Flatten(Document(a, size, wrap, analyzedDate)), section)
      == Drawn(Body(a, size, wrap, analyzedDate), section)
  {
    var body := Body(a, size, wrap, analyzedDate).pages;
    FootersAddNoText(body, Stamp(body, size), section);
  }

  /**
   * The report lists the red flags, then the highlights, each numbered from 1
   * in list order: read back in drawing order, the item texts of the finished
   * document are exactly the numbered items, page breaks and footers aside.
   */
  lemma ListsInSourceOrder(a: AnalysisResult, size: PageSize, wrap: Wrap, analyzedDate: string)
    ensures TextsOf(Flatten(Document(a, size, wrap, analyzedDate)), RedFlagItem) == Numbering(a.redFlags)
    ensures TextsOf(Flatten(Document(a, size, wrap, analyzedDate)), HighlightItem) == Numbering(a.highlights)
  {
    BodyDrawn(a, size, wrap, analyzedDate, RedFlagItem);
    BodyDrawn(a, size, wrap, analyzedDate, HighlightItem);
    DocumentDrawn(a, size, wrap, analyzedDate, RedFlagItem);
    DocumentDrawn(a, size, wrap, analyzedDate, HighlightItem);
  }

  /**
   * The PDF and its text fallback list the same red flags: the text report's
   * red flags section is its title line, then, one per line, the item texts
   * the PDF draws for the red flags in drawing order, then a blank line; and
   * both leave the section out when there are no flags.
   */
  lemma ExportsListTheSameRedFlags(a: AnalysisResult, size: PageSize, wrap: Wrap, analyzedDate: string)
    ensures ListSection("RED FLAGS", a.redFlags) ==
      if a.redFlags == [] then ""
      else "RED FLAGS" + ":\n" + Lines(TextsOf(Flatten(Document(a, size, wrap, analyzedDate)), RedFlagItem)) + "\n"
  {
    ListsInSourceOrder(a, size, wrap, analyzedDate);
  }

  /** The same for the highlights. */
  lemma ExportsListTheSameHighlights(a: AnalysisResult, size: PageSize, wrap: Wrap, analyzedDate: string)
    ensures ListSection("HIGHLIGHTS", a.highlights) ==
      if a.highlights == [] then ""
      else "HIGHLIGHTS" + ":\n" + Lines(TextsOf(Flatten(Document(a, size, wrap, analyzedDate)), HighlightItem)) + "\n"
  {
    ListsInSourceOrder(a, size, wrap, analyzedDate);
  }

  // Where the layout pass puts things.

  predicate NoFooters(pages: seq<Page>) {
    forall k, j :: 0 <= k < |pages| && 0 <= j < |pages[k]| ==> pages[k][j].section != PageFooter
  }

  /** Every page after the first that has something on it starts at the top margin. */
  predicate TopsAtMargin(pages: seq<Page>) {
    forall k :: 1 <= k < |pages| && |pages[k]| > 0 ==> pages[k][0].y == Margin
  }

  /** Every list item starts no lower than `pageHeight - 40`, or at the top margin of a page. */
  predicate ItemsStartHigh(pages: seq<Page>, size: PageSize) {
    forall k, j :: 0 <= k < |pages| && 0 <= j < |pages[k]| && IsListItem(pages[k][j].section) ==>
      pages[k][j].y <= size.height - 40 || pages[k][j].y == Margin
  }

  /** What the layout pass keeps true; a fresh page also has the cursor at the top margin. */
  predicate Laid(c: Cursor, size: PageSize) {
    |c.pages| >= 1 && NoFooters(c.pages) && TopsAtMargin(c.pages) && ItemsStartHigh(c.pages, size) &&
    (|c.pages| > 1 && c.pages[|c.pages| - 1] == [] ==> c.y == Margin)
  }

  predicate LastPageUsed(c: Cursor) {
    |c.pages| > 0 && c.pages[|c.pages| - 1] != []
  }

  /** Drawing at the cursor (anything but a footer, and a list item only high enough) keeps the layout. */
  lemma DrawLaid(c: Cursor, m: Mark, size: PageSize)
    requires Laid(c, size) && m.section != PageFooter && m.y == c.y
    requires IsListItem(m.section) ==> m.y <= size.height - 40 || m.y == Margin
    ensures Laid(Draw(c, m), size) && LastPageUsed(Draw(c, m))
  {
    var d := Draw(c, m);
    var n := |c.pages| - 1;
    assert forall k :: 0 <= k < n ==> d.pages[k] == c.pages[k];
    assert d.pages[n] == c.pages[n] + [m];
    assert forall j :: 0 <= j < |c.pages[n]| ==> d.pages[n][j] == c.pages[n][j];
  }

  /** Moving the cursor down keeps the layout once the current page has something on it. */
  lemma AdvanceLaid(c: Cursor, dy: int, size: PageSize)
    requires Laid(c, size) && LastPageUsed(c)
    ensures Laid(Advance(c, dy), size) && LastPageUsed(Advance(c, dy))
  {
  }

  lemma BreakBelowLaid(c: Cursor, limit: int, size: PageSize)
    requires Laid(c, size)
    ensures Laid(BreakBelow(c, limit), size)
    ensures BreakBelow(c, limit).y <= limit || BreakBelow(c, limit).y == Margin
  {
    var d := AddPage(c);
    assert forall k :: 0 <= k < |c.pages| ==> d.pages[k] == c.pages[k];
  }

  lemma PlaceItemLaid(c: Cursor, section: Section, index: nat, item: string, size: PageSize, wrap: Wrap)
    requires Laid(c, size) && IsListItem(section)
    ensures Laid(PlaceItem(c, section, index, item, size, wrap), size)
    ensures LastPageUsed(PlaceItem(c, section, index, item, size, wrap))
  {
    var b := BreakBelow(c, size.height - 40);
    BreakBelowLaid(c, size.height - 40, size);
    var m := ItemMark(b.y, section, index, item, size, wrap);
    assert b.y <= size.height - 40 || b.y == Margin;
    DrawLaid(b, m, size);
    AdvanceLaid(Draw(b, m), m.lines * 5 + 3, size);
  }

  lemma {:induction false} PlaceItemsLaid(c: Cursor, section: Section, items: seq<string>, size: PageSize, wrap: Wrap)
    requires Laid(c, size) && LastPageUsed(c) && IsListItem(section)
    ensures Laid(PlaceItems(c, section, items, size, wrap), size)
    ensures LastPageUsed(PlaceItems(c, section, items, size, wrap))
    decreases |items|
  {
    if items != [] {
      var n := |items| - 1;
      PlaceItemsLaid(c, section, items[..n], size, wrap);
      PlaceItemLaid(PlaceItems(c, section, items[..n], size, wrap), section, n, items[n], size, wrap);
    }
  }

  lemma FirstPageLaid(a: AnalysisResult, size: PageSize, wrap: Wrap, analyzedDate: string)
    ensures Laid(FirstPage(a, size, wrap, analyzedDate), size)
    ensures LastPageUsed(FirstPage(a, size, wrap, analyzedDate))
  {
    var c := FirstPage(a, size, wrap, analyzedDate);
    assert |c.pages| == 1;
    assert forall j :: 0 <= j < |c.pages[0]| ==> c.pages[0][j].section in {Banner, UrlField, DateField, GradeField, SummaryField};
  }

  lemma RedFlagsPartLaid(c: Cursor, a: AnalysisResult, size: PageSize, wrap: Wrap)
    requires Laid(c, size)
    ensures Laid(RedFlagsPart(c, a, size, wrap), size)
  {
    if a.redFlags != [] {
      var heading := Print(RedFlagsHeading, Margin, c.y, "RED FLAGS (" + NatToString(|a.redFlags|) + ")", 1, Red);
      DrawLaid(c, heading, size);
      var h := Advance(Draw(c, heading), 7);
      PlaceItemsLaid(h, RedFlagItem, a.redFlags, size, wrap);
    }
  }

  lemma HighlightsPartLaid(c: Cursor, a: AnalysisResult, size: PageSize, wrap: Wrap)
    requires Laid(c, size)
    ensures Laid(HighlightsPart(c, a, size, wrap), size)
  {
    if a.highlights != [] {
      var b := BreakBelow(c, size.height - 60);
      BreakBelowLaid(c, size.height - 60, size);
      var heading := Print(HighlightsHeading, Margin, b.y, "HIGHLIGHTS (" + NatToString(|a.highlights|) + ")", 1, Teal);
      DrawLaid(b, heading, size);
      var h := Advance(Draw(b, heading), 7);
      PlaceItemsLaid(h, HighlightItem, a.highlights, size, wrap);
    }
  }

  /**
   * The page breaks do their job for the list items: every red flag and
   * highlight starts no lower than `pageHeight - 40`, or at the top margin of
   * a new page, and every page after the first starts at the top margin.
   * The layout pass draws no footer.
   */
  lemma BodyLayout(a: AnalysisResult, size: PageSize, wrap: Wrap, analyzedDate: string)
    ensures var pages := Body(a, size, wrap, analyzedDate).pages;
      NoFooters(pages) && TopsAtMargin(pages) && ItemsStartHigh(pages, size)
  {
    var c0 := FirstPage(a, size, wrap, analyzedDate);
    FirstPageLaid(a, size, wrap, analyzedDate);
    BreakBelowLaid(c0, size.height - 60, size);
    var c1 := AfterSummary(a, size, wrap, analyzedDate);
    RedFlagsPartLaid(c1, a, size, wrap);
    HighlightsPartLaid(RedFlagsPart(c1, a, size, wrap), a, size, wrap);
  }

  /** The texts of the footers on a page. */
  function FootersOn(page: Page): seq<string> {
    TextsOf(page, PageFooter)
  }

  /** A page without a footer, its footer added: that footer's text is the page's only footer text. */
  lemma OneFooterText(page: Page, footer: Mark)
    requires forall j :: 0 <= j < |page| ==> page[j].section != PageFooter
    requires footer.Centered? && footer.section == PageFooter
    ensures FootersOn(page + [footer]) == [footer.text]
  {
    TextsOfNone(page, PageFooter);
    TextsOfAppend(page, [footer], PageFooter);
    assert [footer][..0] == [];
  }

  lemma StampFooters(body: seq<Page>, size: PageSize)
    requires NoFooters(body)
    ensures forall k :: 0 <= k < |body| ==> FootersOn(Stamp(body, size)[k]) == [FooterText(k + 1, |body|)]
  {
    forall k | 0 <= k < |body|
      ensures FootersOn(Stamp(body, size)[k]) == [FooterText(k + 1, |body|)]
    {
      OneFooterText(body[k], FooterMark(k + 1, |body|, size));
    }
  }

  /**
   * The footer pass: page i of N carries exactly one footer, `Page i of N`,
   * drawn 10 above the bottom edge, as its last mark.
   */
  lemma FooterOnEveryPage(a: AnalysisResult, size: PageSize, wrap: Wrap, analyzedDate: string)
    ensures var doc := Document(a, size, wrap, analyzedDate);
      var n := |doc|;
      n == |Body(a, size, wrap, analyzedDate).pages| &&
      forall k :: 0 <= k < n ==>
        FootersOn(doc[k]) == [FooterText(k + 1, n)] && doc[k][|doc[k]| - 1] == FooterMark(k + 1, n, size)
  {
    BodyLayout(a, size, wrap, analyzedDate);
    StampFooters(Body(a, size, wrap, analyzedDate).pages, size);
  }

  lemma StampKeepsItems(body: seq<Page>, size: PageSize)
    requires ItemsStartHigh(body, size)
    ensures ItemsStartHigh(Stamp(body, size), size)
  {
    var doc: seq<Page> := Stamp(body, size);
    forall k: nat, j: nat | k < |doc| && j < |doc[k]| && IsListItem(doc[k][j].section)
      ensures doc[k][j].y <= size.height - 40 || doc[k][j].y == Margin
    {
      assert j < |body[k]|;
      assert doc[k][j] == body[k][j];
    }
  }

  /** The list items of the finished document start where the layout pass put them. */
  lemma DocumentItemsStartHigh(a: AnalysisResult, size: PageSize, wrap: Wrap, analyzedDate: string)
    ensures ItemsStartHigh(Document(a, size, wrap, analyzedDate), size)
  {
    BodyLayout(a, size, wrap, analyzedDate);
    StampKeepsItems(Body(a, size, wrap, analyzedDate).pages, size);
  }
}
