/**
 * The plain-text report (`exportToText`), which is also what the PDF export
 * falls back to when building the document fails.
 */
module TextReport {
  import opened Text
  import opened Analysis

  /** `${n}. ${item}`: the line of the n-th item of a list, as both exports write it. */
  function Numbered(n: nat, item: string): string {
    NatToString(n) + ". " + item
  }

  /** The labels of a list numbered from 1, in list order. */
  function Numbering(items: seq<string>): (labels: seq<string>)
    ensures |labels| == |items|
    ensures forall k :: 0 <= k < |items| ==> labels[k] == Numbered(k + 1, items[k])
  {
    seq(|items|, k requires 0 <= k < |items| => Numbered(k + 1, items[k]))
  }

  /** Each of `lines` followed by a newline. */
  function Lines(lines: seq<string>): string {
    if lines == [] then "" else Lines(lines[..|lines| - 1]) + lines[|lines| - 1] + "\n"
  }

  /** A list section: its title line, one numbered line per item and a blank line; nothing for an empty list. */
  function ListSection(title: string, items: seq<string>): string {
    if items == [] then "" else title + ":\n" + Lines(Numbering(items)) + "\n"
  }

  const Heading := "TOS REPORT CARD\n\n"
  const Footer := "\n---\nGenerated by TOS Report Card\ntosreportcard.com"

  /**
   * The report for analysis `a`, whose `analyzed_at` the browser's locale
   * writes as `analyzedDate`: heading, URL, date, grade and score, summary, the
   * red flags and the highlights when there are any, and the fixed footer.
   */
  function ReportText(a: AnalysisResult, analyzedDate: string): string {
    Heading
    + "URL: " + TemplateText(a.url) + "\n"
    + "Analyzed: " + analyzedDate + "\n\n"
    + "GRADE: " + a.grade + " (" + IntToString(a.numericScore) + "/100)\n\n"
    + "SUMMARY:\n" + a.summary + "\n\n"
    + ListSection("RED FLAGS", a.redFlags)
    + ListSection("HIGHLIGHTS", a.highlights)
    + Footer
  }

  /** `tos-analysis-${Date.now()}.txt`. */
  function TextFileName(nowMillis: nat): string {
    "tos-analysis-" + NatToString(nowMillis) + ".txt"
  }

  /** One more item adds its numbered line to the lines of the items before it. */
  lemma LinesOfNumberingSnoc(items: seq<string>, i: nat)
    requires i < |items|
    ensures Lines(Numbering(items[..i + 1])) == Lines(Numbering(items[..i])) + (Numbered(i + 1, items[i]) + "\n")
  {
    var next := Numbering(items[..i + 1]);
    assert next[..i] == Numbering(items[..i]);
  }

  /** The `forEach` over one list: appends the numbered lines to `head`, one item at a time. */
  method AppendNumbered(head: string, items: seq<string>) returns (result: string)
    ensures result == head + Lines(Numbering(items))
  {
    result := head;
    var i := 0;
    while i < |items|
      invariant 0 <= i <= |items|
      invariant result == head + Lines(Numbering(items[..i]))
    {
      var line := Numbered(i + 1, items[i]) + "\n";
      LinesOfNumberingSnoc(items, i);
      AppendAssociates(head, Lines(Numbering(items[..i])), line);
      result := result + line;
      i := i + 1;
    }
    assert items[..i] == items;
  }

  /** Appends one list section to `text`: its title, its numbered lines and a blank line, when the list is not empty. */
  method AppendListSection(text: string, title: string, items: seq<string>) returns (result: string)
    ensures result == text + ListSection(title, items)
  {
    result := text;
    if |items| > 0 {
      result := result + title + ":\n";
      result := AppendNumbered(result, items);
      result := result + "\n";
      assert result == text + (title + ":\n" + Lines(Numbering(items)) + "\n");
    }
  }

  /** `exportToText`: builds the report text section by section, as the source accumulates it. */
  method ExportToText(a: AnalysisResult, analyzedDate: string) returns (text: string)
    ensures text == ReportText(a, analyzedDate)
  {
    text := Heading;
    text := text + "URL: " + TemplateText(a.url) + "\n";
    text := text + "Analyzed: " + analyzedDate + "\n\n";
    text := text + "GRADE: " + a.grade + " (" + IntToString(a.numericScore) + "/100)\n\n";
    text := text + "SUMMARY:\n" + a.summary + "\n\n";
    text := AppendListSection(text, "RED FLAGS", a.redFlags);
    text := AppendListSection(text, "HIGHLIGHTS", a.highlights);
    text := text + Footer;
  }

  // Reading a list section back.

  predicate NoNewline(s: string) {
    forall i :: 0 <= i < |s| ==> s[i] != '\n'
  }

  /** The position of the first newline of `s`, or `|s|` when there is none. */
  function NewlineIndex(s: string): (i: nat)
    ensures i <= |s| && NoNewline(s[..i])
    ensures i < |s| ==> s[i] == '\n'
  {
    if s == [] || s[0] == '\n' then 0
    else
      var i := 1 + NewlineIndex(s[1..]);
      assert s[..i] == [s[0]] + s[1..][..i - 1];
      i
  }

  /** The newline-terminated lines of `s`, without their newlines. */
  function SplitLines(s: string): seq<string>
    decreases |s|
  {
    var i := NewlineIndex(s);
    if i >= |s| then (if s == [] then [] else [s]) else [s[..i]] + SplitLines(s[i + 1..])
  }

  /** `Lines` seen from the front: the first line comes first. */
  lemma {:induction false} LinesCons(line: string, rest: seq<string>)
    ensures Lines([line] + rest) == line + "\n" + Lines(rest)
    decreases |rest|
  {
    if rest != [] {
      var all := [line] + rest;
      assert all[..|all| - 1] == [line] + rest[..|rest| - 1];
      LinesCons(line, rest[..|rest| - 1]);
    } else {
      assert ([line] + rest)[..0] == [];
    }
  }

  /** The first newline of `line + "\n" + rest` is the one after `line`, if `line` has none. */
  lemma {:induction false} NewlineIndexAfter(line: string, rest: string)
    requires NoNewline(line)
    ensures NewlineIndex(line + "\n" + rest) == |line|
    decreases |line|
  {
    if line != [] {
      assert (line + "\n" + rest)[1..] == line[1..] + "\n" + rest;
      NewlineIndexAfter(line[1..], rest);
    }
  }

  /** Lines without newlines come back unchanged from `SplitLines`. */
  lemma {:induction false} SplitLinesOfLines(lines: seq<string>)
    requires forall k :: 0 <= k < |lines| ==> NoNewline(lines[k])
    ensures SplitLines(Lines(lines)) == lines
    decreases |lines|
  {
    if lines != [] {
      var first, rest := lines[0], lines[1..];
      assert lines == [first] + rest;
      LinesCons(first, rest);
      var s := Lines(lines);
      assert s == first + "\n" + Lines(rest);
      NewlineIndexAfter(first, Lines(rest));
      var i := NewlineIndex(s);
      assert s[..i] == first;
      assert s[i + 1..] == Lines(rest);
      SplitLinesOfLines(rest);
    }
  }

  /** The number of leading digits of `s`. */
  function DigitRun(s: string): (n: nat)
    ensures n <= |s| && AllDigits(s[..n])
    ensures n < |s| ==> !IsDigit(s[n])
  {
    if s == [] || !IsDigit(s[0]) then 0
    else
      var n := 1 + DigitRun(s[1..]);
      assert s[..n] == [s[0]] + s[1..][..n - 1];
      n
  }

  /** The leading digits of `digits + rest` are `digits`, when `rest` starts with something else. */
  lemma {:induction false} DigitRunOf(digits: string, rest: string)
    requires AllDigits(digits)
    requires rest == [] || !IsDigit(rest[0])
    ensures DigitRun(digits + rest) == |digits|
    decreases |digits|
  {
    if digits != [] {
      assert (digits + rest)[1..] == digits[1..] + rest;
      DigitRunOf(digits[1..], rest);
    } else {
      assert digits + rest == rest;
    }
  }

  /** The number and the item of a line `n. item`, when it has that shape. */
  function ParseNumbered(line: string): Option<(int, string)> {
    var n := DigitRun(line);
    if 0 < n && n + 2 <= |line| && line[n..n + 2] == ". " then
      Some((ParseNat(line[..n]), line[n + 2..]))
    else
      None
  }

  /** Every numbered line reads back as its number and its item. */
  lemma ParseNumberedOfNumbered(n: nat, item: string)
    ensures ParseNumbered(Numbered(n, item)) == Some((n, item))
  {
    var digits := NatToString(n);
    var line := Numbered(n, item);
    assert line == digits + (". " + item);
    DigitRunOf(digits, ". " + item);
    var run := DigitRun(line);
    assert line[..run] == digits;
    assert line[run..run + 2] == ". ";
    assert line[run + 2..] == item;
    ParseNatToString(n);
  }

  /** The items of a section body read back line by line, if every line is a numbered item. */
  function ReadNumbered(lines: seq<string>): Option<seq<(int, string)>> {
    if lines == [] then Some([])
    else
      match (ParseNumbered(lines[0]), ReadNumbered(lines[1..]))
      case (Some(entry), Some(rest)) => Some([entry] + rest)
      case _ => None
  }

  /** The pairs (k + 1, items[k]) for the items from position `from` on. */
  function Entries(items: seq<string>, from: nat): (e: seq<(int, string)>)
    requires from <= |items|
    ensures |e| == |items| - from
    ensures forall k :: 0 <= k < |e| ==> e[k] == (from + k + 1, items[from + k])
  {
    seq(|items| - from, k requires 0 <= k < |items| - from => (from + k + 1, items[from + k]))
  }

  /** The lines `Numbering` produces read back as the pairs (k + 1, items[k]). */
  lemma {:induction false} ReadNumberedOfNumbering(items: seq<string>, from: nat)
    requires from <= |items|
    ensures ReadNumbered(Numbering(items)[from..]) == Some(Entries(items, from))
    decreases |items| - from
  {
    var labels := Numbering(items)[from..];
    if from < |items| {
      ParseNumberedOfNumbered(from + 1, items[from]);
      assert labels[0] == Numbered(from + 1, items[from]);
      assert labels[1..] == Numbering(items)[from + 1..];
      ReadNumberedOfNumbering(items, from + 1);
      assert Entries(items, from) == [(from + 1, items[from])] + Entries(items, from + 1);
    } else {
      assert labels == [];
    }
  }

  /** No numbered line of newline-free items holds a newline. */
  lemma NumberingNoNewline(items: seq<string>)
    requires forall k :: 0 <= k < |items| ==> NoNewline(items[k])
    ensures forall k :: 0 <= k < |items| ==> NoNewline(Numbering(items)[k])
  {
    forall k | 0 <= k < |items| ensures NoNewline(Numbering(items)[k]) {
      var d := NatToString(k + 1);
      var line := Numbering(items)[k];
      assert line == d + ". " + items[k];
      forall i | 0 <= i < |line| ensures line[i] != '\n' {
        assert i < |d| ==> line[i] == d[i];
        assert i >= |d| + 2 ==> line[i] == items[k][i - |d| - 2];
      }
    }
  }

  /** A non-empty section is its title line, its numbered lines and a blank line. */
  lemma ListSectionLines(title: string, items: seq<string>)
    requires items != []
    ensures ListSection(title, items) == Lines([title + ":"] + Numbering(items) + [""])
  {
    var labels := Numbering(items);
    var t := title + ":";
    var all := [t] + labels + [""];
    assert all[..|all| - 1] == [t] + labels;
    assert Lines(all) == Lines([t] + labels) + "" + "\n";
    assert Lines([t] + labels) + "" == Lines([t] + labels);
    LinesCons(t, labels);
    AppendAssociates(title, ":", "\n");
    assert title + ":\n" == t + "\n";
  }

  /**
   * The text export enumerates each list faithfully: as long as no item holds a
   * newline, the lines of a non-empty section are its title, the numbered items
   * and a blank line, and reading the numbered lines back gives the numbers
   * 1, 2, ... with the items themselves, in list order.
   */
  lemma ListSectionReadsBack(title: string, items: seq<string>)
    requires items != [] && NoNewline(title)
    requires forall k :: 0 <= k < |items| ==> NoNewline(items[k])
    ensures SplitLines(ListSection(title, items)) == [title + ":"] + Numbering(items) + [""]
    ensures ReadNumbered(Numbering(items)) == Some(Entries(items, 0))
  {
    var all := [title + ":"] + Numbering(items) + [""];
    NumberingNoNewline(items);
    assert NoNewline(title + ":");
    assert forall k :: 0 <= k < |all| ==> NoNewline(all[k]);
    ListSectionLines(title, items);
    SplitLinesOfLines(all);
    ReadNumberedOfNumbering(items, 0);
    assert Numbering(items)[0..] == Numbering(items);
  }
}
