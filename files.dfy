/**
 * What the two exports hand to the browser: the PDF saved under a name built
 * from the analysed site and today's date, or, when building the PDF fails,
 * the plain-text report downloaded under a name built from the clock.
 */
module ReportFiles {
  import opened Text
  import opened Analysis
  import opened TextReport
  import opened PdfReport

  predicate IsAsciiAlphanumeric(c: char) {
    IsDigit(c) || 'a' <= c <= 'z' || 'A' <= c <= 'Z'
  }

  /** `replace(/[^a-z0-9]/gi, '-')`: every character but an ASCII letter or digit becomes `-`. */
  function SanitizeHost(host: string): (safe: string)
    ensures |safe| == |host|
    ensures forall i :: 0 <= i < |host| ==>
      safe[i] == (if IsAsciiAlphanumeric(host[i]) then host[i] else '-')
  {
    if host == [] then []
    else
      var c := host[|host| - 1];
      SanitizeHost(host[..|host| - 1]) + [if IsAsciiAlphanumeric(c) then c else '-']
  }

  /** A sanitised host holds only ASCII letters, digits and `-`, and sanitising it again changes nothing. */
  lemma SanitizeHostIsSafe(host: string)
    ensures var safe := SanitizeHost(host);
      (forall i :: 0 <= i < |safe| ==> IsAsciiAlphanumeric(safe[i]) || safe[i] == '-') &&
      SanitizeHost(safe) == safe
  {
  }

  /** Two hosts that differ only where neither has a letter or a digit get the same name. */
  lemma SanitizeHostMergesSeparators(h1: string, h2: string)
    requires |h1| == |h2|
    requires forall i :: 0 <= i < |h1| ==>
      h1[i] == h2[i] || (!IsAsciiAlphanumeric(h1[i]) && !IsAsciiAlphanumeric(h2[i]))
    ensures SanitizeHost(h1) == SanitizeHost(h2)
  {
  }

  /** `iso.split('T')[0]`: everything before the first `T`. */
  function DatePart(iso: string): (date: string)
    ensures date <= iso && 'T' !in date
    ensures |date| < |iso| ==> iso[|date|] == 'T'
  {
    if iso == [] || iso[0] == 'T' then []
    else
      var rest := DatePart(iso[1..]);
      assert iso == [iso[0]] + iso[1..];
      [iso[0]] + rest
  }

  /** The address is there and not empty: JavaScript's truthiness of `currentAnalysis.url`. */
  predicate HasUrl(a: AnalysisResult) {
    a.url.Some? && a.url.value != ""
  }

  /**
   * The name under which the PDF is saved: `tos-report-card-`, the host with
   * every character but a letter or digit turned into `-`, `-`, the date and `.pdf`.
   */
  function PdfFileName(domain: string, isoNow: string): (name: string)
    ensures |name| == 21 + |domain| + |DatePart(isoNow)|
    ensures name[..16] == "tos-report-card-" && name[|name| - 4..] == ".pdf"
    ensures name[16..16 + |domain|] == SanitizeHost(domain)
    ensures forall i :: 16 <= i < 16 + |domain| ==> IsAsciiAlphanumeric(name[i]) || name[i] == '-'
    ensures name[16 + |domain|] == '-' && name[17 + |domain|..|name| - 4] == DatePart(isoNow)
  {
    var safe := SanitizeHost(domain);
    var date := DatePart(isoNow);
    var name := "tos-report-card-" + safe + "-" + date + ".pdf";
    assert name[16..16 + |domain|] == safe;
    name
  }

  datatype Export = PdfFile(name: string, pages: seq<Page>) | TextFile(name: string, content: string)

  /**
   * `exportToPDF` for analysis `a`. The browser's side is given: whether the
   * jsPDF library is loaded, the host `new URL(url)` parses from the analysis'
   * address (none when the address does not parse, which throws), the ISO
   * time and the milliseconds of the clock. Either exception falls back to the
   * text export.
   */
  function PdfExport(a: AnalysisResult, size: PageSize, wrap: Wrap, analyzedDate: string,
                     jsPdfLoaded: bool, hostname: Option<string>, isoNow: string, nowMillis: nat): Export
  {
    if !jsPdfLoaded || (HasUrl(a) && hostname.None?) then
      TextFile(TextFileName(nowMillis), ReportText(a, analyzedDate))
    else
      var domain := if HasUrl(a) then hostname.value else "analysis";
      PdfFile(PdfFileName(domain, isoNow), Document(a, size, wrap, analyzedDate))
  }

  /** `name` is `tos-report-card-<host>-<date>.pdf` for the sanitised `domain` and the date part of `isoNow`. */
  predicate SavedAs(name: string, domain: string, isoNow: string) {
    |name| == 21 + |domain| + |DatePart(isoNow)| &&
    name[..16] == "tos-report-card-" && name[16..16 + |domain|] == SanitizeHost(domain) &&
    name[16 + |domain|] == '-' && name[17 + |domain|..|name| - 4] == DatePart(isoNow) &&
    name[|name| - 4..] == ".pdf"
  }

  /** Page i of N carries the one footer `Page i of N`. */
  predicate Footed(pages: seq<Page>) {
    forall k :: 0 <= k < |pages| ==> FootersOn(pages[k]) == [FooterText(k + 1, |pages|)]
  }

  /**
   * What `exportToPDF` hands to the browser. A PDF exactly when jsPDF is
   * loaded and the address, if there is one, parses: saved as
   * `tos-report-card-<host>-<date>.pdf` with the sanitised host (`analysis`
   * without an address) and the date part of the clock; every page i of N
   * carries the footer `Page i of N`, and the red flags and highlights are
   * drawn numbered from 1 in list order. Otherwise the text report, under
   * the clock-based name.
   */
  lemma PdfExportOutcome(a: AnalysisResult, size: PageSize, wrap: Wrap, analyzedDate: string,
                         jsPdfLoaded: bool, hostname: Option<string>, isoNow: string, nowMillis: nat)
    ensures var file := PdfExport(a, size, wrap, analyzedDate, jsPdfLoaded, hostname, isoNow, nowMillis);
      var domain := if HasUrl(a) && hostname.Some? then hostname.value else "analysis";
      (file.PdfFile? <==> jsPdfLoaded && (!HasUrl(a) || hostname.Some?)) &&
      (file.PdfFile? ==>
        SavedAs(file.name, domain, isoNow) && Footed(file.pages) &&
        TextsOf(Flatten(file.pages), RedFlagItem) == Numbering(a.redFlags) &&
        TextsOf(Flatten(file.pages), HighlightItem) == Numbering(a.highlights)) &&
      (file.TextFile? ==>
        file.content == ReportText(a, analyzedDate) && file.name == TextFileName(nowMillis))
  {
    var file := PdfExport(a, size, wrap, analyzedDate, jsPdfLoaded, hostname, isoNow, nowMillis);
    if file.PdfFile? {
      var domain := if HasUrl(a) && hostname.Some? then hostname.value else "analysis";
      assert file.name == PdfFileName(domain, isoNow) && file.pages == Document(a, size, wrap, analyzedDate);
      FooterOnEveryPage(a, size, wrap, analyzedDate);
      ListsInSourceOrder(a, size, wrap, analyzedDate);
    }
  }

  /** `exportToPDF`: the layout and footer passes, then the file name, with the text export as fallback. */
  method ExportToPdf(a: AnalysisResult, size: PageSize, wrap: Wrap, analyzedDate: string,
                     jsPdfLoaded: bool, hostname: Option<string>, isoNow: string, nowMillis: nat)
    returns (file: Export)
    ensures file == PdfExport(a, size, wrap, analyzedDate, jsPdfLoaded, hostname, isoNow, nowMillis)
  {
    if !jsPdfLoaded {
      var text := ExportToText(a, analyzedDate);
      return TextFile(TextFileName(nowMillis), text);
    }
    var pages := RenderPdf(a, size, wrap, analyzedDate);
    var domain := "analysis";
    if HasUrl(a) {
      if hostname.None? {
        var text := ExportToText(a, analyzedDate);
        return TextFile(TextFileName(nowMillis), text);
      }
      domain := hostname.value;
    }
    file := PdfFile(PdfFileName(domain, isoNow), pages);
  }
}
