/**
 Shaping grading results for export: the score records, the CSV text, the
 per-student part of the PDF report, the empty-list guard of both exports and
 the HTML download links that carry their content as Base64.

 The export entry points are modelled twice. `ExportToCsv`, `GeneratePdf` and
 `ExportToPdf` follow the code as written, which looks up `datetime.datetime`
 on the `datetime` class and so fails on every path that reaches the clock.
 `ExportToCsvAt`, `ReportElements` and `ExportToPdfAt` are the evidently
 intended versions, with the clock's formatted reading as a parameter.
 */
module Export {
  import opened Outcomes
  import opened Text
  import opened Bytes
  import Csv
  import Base64
  import Utf8

  /** One grading result as the exports receive it; either key may be missing. */
  datatype GradingResult = GradingResult(studentName: Option<string>, gradingResult: Option<string>)

  /** A row of the score table. */
  datatype ScoreRecord = ScoreRecord(studentName: string, feedback: string, totalScore: string)

  const UnnamedStudent: string := "Unnamed Student"

  /** The score column's only value: no score is parsed from the feedback. */
  const NoScore: string := "N/A"

  /** The record `extract_scores` makes of one result. */
  function ScoreOf(r: GradingResult): ScoreRecord {
    ScoreRecord(r.studentName.GetOr(UnnamedStudent), r.gradingResult.GetOr(""), NoScore)
  }

  /** `extract_scores`: one record per result, in order, with the defaults for missing keys. */
  method ExtractScores(results: seq<GradingResult>) returns (scores: seq<ScoreRecord>)
    ensures |scores| == |results|
    ensures forall i :: 0 <= i < |results| ==>
      && (results[i].studentName.Some? ==> scores[i].studentName == results[i].studentName.value)
      && (results[i].studentName.None? ==> scores[i].studentName == UnnamedStudent)
      && (results[i].gradingResult.Some? ==> scores[i].feedback == results[i].gradingResult.value)
      && (results[i].gradingResult.None? ==> scores[i].feedback == "")
      && scores[i].totalScore == NoScore
  {
    scores := [];
    for k := 0 to |results|
      invariant |scores| == k
      invariant forall i :: 0 <= i < k ==> scores[i] == ScoreOf(results[i])
    {
      scores := scores + [ScoreOf(results[k])];
    }
  }

  /** The CSV header, in the writer's field order. */
  const Header: Csv.Row := ["Student Name", "Total Score", "Feedback"]

  /** A record as a CSV row, in the header's order. */
  function ScoreRow(s: ScoreRecord): Csv.Row {
    [s.studentName, s.totalScore, s.feedback]
  }

  /** The header followed by one row per result, in order. */
  function Table(results: seq<GradingResult>): (rows: seq<Csv.Row>)
    ensures |rows| == |results| + 1 && rows[0] == Header
    ensures forall i :: 0 <= i < |results| ==> rows[i + 1] == ScoreRow(ScoreOf(results[i]))
  {
    [Header] + seq(|results|, i requires 0 <= i < |results| => ScoreRow(ScoreOf(results[i])))
  }

  /**
   `create_csv_string`: the header written first, then each record's row, in
   the order of the results.
   */
  method CreateCsvString(results: seq<GradingResult>) returns (csv: string)
    ensures csv == Csv.WriteRows(Table(results))
  {
    var scores := ExtractScores(results);
    csv := WriteHeader(results);
    for k := 0 to |scores|
      invariant csv == Csv.WriteRows(Table(results)[..k + 1])
    {
      CsvNextRecord(results, k, csv, scores[k]);
      csv := csv + Csv.WriteRow(ScoreRow(scores[k]));
    }
    CsvWhole(results, csv);
  }

  /** Appending the row of the record extracted from result `k` extends the CSV text by one table row. */
  lemma CsvNextRecord(results: seq<GradingResult>, k: nat, csv: string, s: ScoreRecord)
    requires k < |results|
    requires csv == Csv.WriteRows(Table(results)[..k + 1])
    requires results[k].studentName.Some? ==> s.studentName == results[k].studentName.value
    requires results[k].studentName.None? ==> s.studentName == UnnamedStudent
    requires results[k].gradingResult.Some? ==> s.feedback == results[k].gradingResult.value
    requires results[k].gradingResult.None? ==> s.feedback == ""
    requires s.totalScore == NoScore
    ensures csv + Csv.WriteRow(ScoreRow(s)) == Csv.WriteRows(Table(results)[..k + 2])
  {
    RecordIsScoreOf(results[k], s);
    CsvStep(Table(results), k, csv, ScoreRow(s));
  }

  /** A record with the defaults of `extract_scores` is the one `ScoreOf` makes. */
  lemma RecordIsScoreOf(r: GradingResult, s: ScoreRecord)
    requires r.studentName.Some? ==> s.studentName == r.studentName.value
    requires r.studentName.None? ==> s.studentName == UnnamedStudent
    requires r.gradingResult.Some? ==> s.feedback == r.gradingResult.value
    requires r.gradingResult.None? ==> s.feedback == ""
    requires s.totalScore == NoScore
    ensures s == ScoreOf(r)
  {
  }

  /** The CSV text of the header alone. */
  lemma CsvStart(results: seq<GradingResult>)
    ensures Csv.WriteRows(Table(results)[..1]) == Csv.WriteRow(Header)
  {
    assert Table(results)[..1] == [Header];
  }

  /** `writer.writeheader()`: the line of the field names, which is the text of the table's first row. */
  method WriteHeader(results: seq<GradingResult>) returns (line: string)
    ensures line == Csv.WriteRows(Table(results)[..1])
  {
    line := Csv.WriteRow(Header);
    CsvStart(results);
  }

  /** The CSV text of every row of the table is the text of the whole table. */
  lemma CsvWhole(results: seq<GradingResult>, csv: string)
    requires csv == Csv.WriteRows(Table(results)[..|results| + 1])
    ensures csv == Csv.WriteRows(Table(results))
  {
    assert Table(results)[..|results| + 1] == Table(results);
  }

  /** The CSV text of one more row of a table is the text so far followed by that row's line. */
  lemma CsvStep(table: seq<Csv.Row>, k: nat, csv: string, row: Csv.Row)
    requires k + 1 < |table|
    requires csv == Csv.WriteRows(table[..k + 1]) && row == table[k + 1]
    ensures csv + Csv.WriteRow(row) == Csv.WriteRows(table[..k + 2])
  {
    assert table[..k + 2] == table[..k + 1] + [row];
    WriteRowsSnoc(table[..k + 1], row);
  }

  /** Writing one more row appends its line. */
  lemma {:induction false} WriteRowsSnoc(rows: seq<Csv.Row>, row: Csv.Row)
    ensures Csv.WriteRows(rows + [row]) == Csv.WriteRows(rows) + Csv.WriteRow(row)
    decreases |rows|
  {
    if |rows| > 0 {
      assert (rows + [row])[1..] == rows[1..] + [row];
      WriteRowsSnoc(rows[1..], row);
    } else {
      assert rows + [row] == [row];
    }
  }

  /**
   Reading the CSV text back gives the header and, for each result in order,
   its name (or "Unnamed Student"), "N/A" and its feedback (or "").
   */
  lemma CsvReadsBack(results: seq<GradingResult>)
    ensures var table := Csv.Parse(Csv.WriteRows(Table(results)));
      && table.Success? && |table.value| == |results| + 1
      && table.value[0] == ["Student Name", "Total Score", "Feedback"]
      && forall i :: 0 <= i < |results| ==>
           table.value[i + 1] == [results[i].studentName.GetOr(UnnamedStudent), NoScore,
                                  results[i].gradingResult.GetOr("")]
  {
    Csv.ParseWritten(Table(results));
  }

  /** What `export_to_csv` and `export_to_pdf` return for an empty list. */
  const NoResultsMessage: string := "No results to export"

  /** The failure of `datetime.datetime.now()` when `datetime` names the class. */
  datatype ExportError = NoDatetimeAttribute

  /** `export_to_csv` as written: the guard's message, else the failing clock lookup. */
  function ExportToCsv(results: seq<GradingResult>): (r: Result<string, ExportError>)
    ensures r.Success? <==> |results| == 0
    ensures r.Success? ==> r.value == NoResultsMessage
    ensures r.Failure? ==> r.error == NoDatetimeAttribute
  {
    if |results| == 0 then Success(NoResultsMessage) else Failure(NoDatetimeAttribute)
  }

  /** An HTML anchor that downloads `payload` (Base64 text) as `filename`. */
  function Link(mime: string, payload: string, filename: string, text: string): string {
    LinkPrefix(mime) + payload + "\" download=\"" + filename + "\">" + text + "</a>"
  }

  /** The part of a link before its payload. */
  function LinkPrefix(mime: string): string {
    "<a href=\"data:" + mime + ";base64,"
  }

  /** The text up to the first quote character. */
  function UpToQuote(s: string): (p: string)
    ensures p <= s && '"' !in p
  {
    if |s| == 0 || s[0] == '"' then [] else [s[0]] + UpToQuote(s[1..])
  }

  /** The payload a link of type `mime` carries, read back out of its text. */
  function PayloadOf(link: string, mime: string): Option<string> {
    var prefix := LinkPrefix(mime);
    if prefix <= link then Some(UpToQuote(link[|prefix|..])) else None
  }

  /** A quote-free text followed by a quote is read up to that quote. */
  lemma {:induction false} UpToQuoteOf(p: string, rest: string)
    requires '"' !in p
    ensures UpToQuote(p + "\"" + rest) == p
    decreases |p|
  {
    if |p| > 0 {
      assert (p + "\"" + rest)[1..] == p[1..] + "\"" + rest;
      UpToQuoteOf(p[1..], rest);
      assert [p[0]] + p[1..] == p;
    } else {
      assert (p + "\"" + rest)[0] == '"';
    }
  }

  /** A link's payload is found again in its text, whatever the file name and link text. */
  lemma PayloadOfLink(mime: string, payload: string, filename: string, text: string)
    requires '"' !in payload
    ensures PayloadOf(Link(mime, payload, filename, text), mime) == Some(payload)
  {
    var prefix := LinkPrefix(mime);
    var rest := " download=\"" + filename + "\">" + text + "</a>";
    var link := Link(mime, payload, filename, text);
    assert link == prefix + (payload + "\"" + rest);
    assert link[|prefix|..] == payload + "\"" + rest;
    UpToQuoteOf(payload, rest);
  }

  /** The Base64 text of some octets contains no quote character. */
  lemma Base64QuoteFree(data: seq<byte>)
    ensures '"' !in Base64.Encode(data)
  {
    Base64.EncodeChars(data);
  }

  /** What `get_download_link` accepts: text, which is encoded as UTF-8 first, or raw octets. */
  datatype Content = TextContent(text: string) | BinaryContent(data: seq<byte>)

  /** The octets a content stands for. */
  function ContentBytes(content: Content): seq<byte> {
    match content
    case TextContent(s) => Utf8.Encode(s)
    case BinaryContent(data) => data
  }

  /** `get_download_link`: a generic download anchor carrying the content's Base64 text. */
  function GetDownloadLink(content: Content, filename: string, text: string): string {
    Link("file/octet-stream", Base64.Encode(ContentBytes(content)), filename, text)
  }

  /**
   The content can be recovered from a download link: its payload decodes to
   the content's octets, and for text content those decode to the text.
   */
  lemma DownloadLinkCarriesContent(content: Content, filename: string, text: string)
    ensures var payload := PayloadOf(GetDownloadLink(content, filename, text), "file/octet-stream");
      && payload.Some?
      && Base64.Decode(payload.value) == Success(ContentBytes(content))
      && (content.TextContent? ==> Utf8.Decode(ContentBytes(content)) == Success(content.text))
  {
    var data := ContentBytes(content);
    Base64QuoteFree(data);
    PayloadOfLink("file/octet-stream", Base64.Encode(data), filename, text);
    Base64.DecodeEncode(data);
    if content.TextContent? {
      Utf8.DecodeEncode(content.text);
    }
  }

  /** The download name of an export, from the clock's reading formatted as `%Y%m%d_%H%M%S`. */
  function ExportFilename(stamp: string, extension: string): string {
    "grading_results_" + stamp + extension
  }

  /** `export_to_csv` with the clock's reading given: the guard's message, else a CSV download link. */
  function ExportToCsvAt(results: seq<GradingResult>, stamp: string): string {
    if |results| == 0 then NoResultsMessage
    else
      Link("text/csv", Base64.Encode(Utf8.Encode(Csv.WriteRows(Table(results)))),
           ExportFilename(stamp, ".csv"), "Download CSV")
  }

  /**
   The corrected CSV export returns the guard's message exactly for an empty
   list; otherwise its link carries the CSV text, which reads back as the
   header and the rows of the results.
   */
  lemma CsvExportCarriesTable(results: seq<GradingResult>, stamp: string)
    ensures ExportToCsvAt(results, stamp) == NoResultsMessage <==> |results| == 0
    ensures |results| > 0 ==>
      var payload := PayloadOf(ExportToCsvAt(results, stamp), "text/csv");
      && payload.Some?
      && Base64.Decode(payload.value).Success?
      && Utf8.Decode(Base64.Decode(payload.value).value).Success?
      && Csv.Parse(Utf8.Decode(Base64.Decode(payload.value).value).value) == Success(Table(results))
  {
    if |results| > 0 {
      assert ExportToCsvAt(results, stamp)[0] != NoResultsMessage[0];
      var csv := Csv.WriteRows(Table(results));
      var data := Utf8.Encode(csv);
      Base64QuoteFree(data);
      PayloadOfLink("text/csv", Base64.Encode(data), ExportFilename(stamp, ".csv"), "Download CSV");
      Base64.DecodeEncode(data);
      Utf8.DecodeEncode(csv);
      Csv.ParseWritten(Table(results));
    }
  }

  /** The paragraph styles of the report. */
  datatype Style = TitleStyle | HeaderStyle | NormalStyle

  /** A flowable of the report: a paragraph of marked-up text, or vertical space in points. */
  datatype Element = Paragraph(text: string, style: Style) | Spacer(height: nat)

  /** The assignment details the report shows; each key may be missing. */
  datatype AssignmentInfo = AssignmentInfo(title: Option<string>, instructions: Option<string>, gradeLevel: Option<string>)

  /** The report's name for the student at 0-based position `i`: their name, or "Student {i+1}". */
  function PdfStudentName(i: nat, r: GradingResult): string {
    r.studentName.GetOr("Student " + NatToDecimal(i + 1))
  }

  /** The feedback the report shows for a result. */
  function PdfFeedback(r: GradingResult): string {
    r.gradingResult.GetOr("No feedback provided")
  }

  /** The feedback's lines that hold something other than whitespace, in order. */
  function FeedbackLines(feedback: string): seq<string> {
    NonBlank(Split(feedback, '\n'))
  }

  /** One paragraph per line. */
  function Paragraphs(lines: seq<string>): (ps: seq<Element>)
    ensures |ps| == |lines|
    ensures forall k :: 0 <= k < |lines| ==> ps[k] == Paragraph(lines[k], NormalStyle)
  {
    seq(|lines|, k requires 0 <= k < |lines| => Paragraph(lines[k], NormalStyle))
  }

  /** The report's block for the student at position `i`. */
  function StudentElements(i: nat, r: GradingResult): seq<Element> {
    [Paragraph("<b>Student:</b> " + PdfStudentName(i, r), NormalStyle), Paragraph("<b>Feedback:</b>", NormalStyle)]
    + Paragraphs(FeedbackLines(PdfFeedback(r))) + [Spacer(20)]
  }

  /**
   A student block: the name, the feedback heading, one paragraph per
   non-blank feedback line in order, and a spacer.
   */
  lemma StudentBlockShape(i: nat, r: GradingResult)
    ensures var block := StudentElements(i, r);
      var lines := FeedbackLines(PdfFeedback(r));
      && |block| == |lines| + 3
      && block[0] == Paragraph("<b>Student:</b> " + PdfStudentName(i, r), NormalStyle)
      && block[1] == Paragraph("<b>Feedback:</b>", NormalStyle)
      && block[|block| - 1] == Spacer(20)
      && (forall k :: 0 <= k < |lines| ==> block[k + 2] == Paragraph(lines[k], NormalStyle))
  {
  }

  /**
   The lines a block shows are exactly the feedback's non-blank lines, in
   order: none holds a line break or is blank, every non-blank line of the
   feedback is shown as often as it occurs there, and joining all of the
   feedback's lines gives the feedback back.
   */
  lemma FeedbackLinesShape(feedback: string)
    ensures var lines, parts := FeedbackLines(feedback), Split(feedback, '\n');
      && (forall k :: 0 <= k < |lines| ==> '\n' !in lines[k] && HasNonSpace(lines[k]))
      && (forall x :: x in parts && HasNonSpace(x) ==> x in lines)
      && (forall x :: multiset(lines)[x] == if HasNonSpace(x) then multiset(parts)[x] else 0)
      && IsSubsequence(lines, parts)
      && Join(parts, '\n') == feedback
  {
    var lines, parts := FeedbackLines(feedback), Split(feedback, '\n');
    SplitShape(feedback, '\n');
    NonBlankShape(parts);
    forall k | 0 <= k < |lines| ensures '\n' !in lines[k] {
      assert lines[k] in parts;
    }
  }

  /** An unnamed student's report name: "Student " and the 1-based position, unlike the CSV's "Unnamed Student". */
  lemma PdfDefaultName(i: nat, r: GradingResult)
    requires r.studentName.None?
    ensures PdfStudentName(i, r) == "Student " + NatToDecimal(i + 1)
    ensures PdfStudentName(i, r) != ScoreOf(r).studentName
  {
    assert PdfStudentName(i, r)[0] == 'S';
    assert UnnamedStudent[0] == 'U';
  }

  /** Two unnamed students at different positions get different report names. */
  lemma PdfDefaultNamesDiffer(i: nat, j: nat, r: GradingResult, q: GradingResult)
    requires r.studentName.None? && q.studentName.None? && i != j
    ensures PdfStudentName(i, r) != PdfStudentName(j, q)
  {
    var a, b := PdfStudentName(i, r), PdfStudentName(j, q);
    if a == b {
      assert a[8..] == NatToDecimal(i + 1) && b[8..] == NatToDecimal(j + 1);
      DecimalInjective(i + 1, j + 1);
    }
  }

  /** The concatenation of a list of blocks. */
  function Flatten<T>(blocks: seq<seq<T>>): seq<T> {
    if |blocks| == 0 then [] else blocks[0] + Flatten(blocks[1..])
  }

  /** The number of elements the first `n` blocks take. */
  function FlatLength<T>(blocks: seq<seq<T>>, n: nat): nat
    requires n <= |blocks|
  {
    if n == 0 then 0 else |blocks[0]| + FlatLength(blocks[1..], n - 1)
  }

  /** A slice lying in the second part of a concatenation is a slice of that part. */
  lemma SliceAfter<T>(a: seq<T>, b: seq<T>, lo: nat, hi: nat)
    requires |a| <= lo <= hi <= |a| + |b|
    ensures (a + b)[lo..hi] == b[lo - |a|..hi - |a|]
  {
  }

  /** Each block sits, unchanged and in order, after the blocks before it. */
  lemma {:induction false} FlattenAt<T>(blocks: seq<seq<T>>, i: nat)
    requires i < |blocks|
    ensures var off := FlatLength(blocks, i);
      && off + |blocks[i]| <= |Flatten(blocks)|
      && Flatten(blocks)[off..off + |blocks[i]|] == blocks[i]
    decreases i
  {
    var head, tail := blocks[0], Flatten(blocks[1..]);
    assert Flatten(blocks) == head + tail;
    if i == 0 {
      assert (head + tail)[0..|head|] == head;
    } else {
      FlattenAt(blocks[1..], i - 1);
      assert blocks[1..][i - 1] == blocks[i];
      var off := FlatLength(blocks[1..], i - 1);
      SliceAfter(head, tail, |head| + off, |head| + off + |blocks[i]|);
    }
  }

  /** The block of each student, by position. */
  function StudentBlocks(results: seq<GradingResult>): (blocks: seq<seq<Element>>)
    ensures |blocks| == |results|
    ensures forall i :: 0 <= i < |results| ==> blocks[i] == StudentElements(i, results[i])
  {
    seq(|results|, i requires 0 <= i < |results| => StudentElements(i, results[i]))
  }

  /** The report's opening: title, date, assignment details and the results heading. */
  function ReportHead(info: AssignmentInfo, dateStr: string): seq<Element> {
    [ Paragraph(info.title.GetOr("Essay Assessment Report"), TitleStyle), Spacer(12),
      Paragraph("Generated on: " + dateStr, NormalStyle), Spacer(12),
      Paragraph("Assignment Details:", HeaderStyle),
      Paragraph("<b>Grade Level:</b> " + info.gradeLevel.GetOr("Not specified"), NormalStyle),
      Paragraph("<b>Instructions:</b> " + info.instructions.GetOr("No instructions provided"), NormalStyle),
      Spacer(20),
      Paragraph("Grading Results:", HeaderStyle), Spacer(10) ]
  }

  /**
   The element list `generate_pdf` hands to the renderer, with the clock's
   reading (formatted as `%Y-%m-%d %H:%M:%S`) given.
   */
  function ReportElements(results: seq<GradingResult>, info: AssignmentInfo, dateStr: string): seq<Element> {
    ReportHead(info, dateStr) + Flatten(StudentBlocks(results))
  }

  /**
   The report holds, after its ten opening elements, the block of every
   student in the results' order: the block of the student at position `i`
   follows the blocks of the students before it.
   */
  lemma ReportStudentOrder(results: seq<GradingResult>, info: AssignmentInfo, dateStr: string, i: nat)
    requires i < |results|
    ensures var report := ReportElements(results, info, dateStr);
      var off := 10 + FlatLength(StudentBlocks(results), i);
      var block := StudentBlocks(results)[i];
      && off + |block| <= |report|
      && report[off..off + |block|] == block
  {
    ReportHeadLength(info, dateStr);
    BlockAfterHead(ReportElements(results, info, dateStr), ReportHead(info, dateStr), 10, StudentBlocks(results), i);
  }

  /**
   The report carries the date it was generated on: the third element, after
   the title and its spacer, is the "Generated on:" paragraph with the clock's
   reading, whatever the results, so reports generated at different readings
   differ.
   */
  lemma ReportCarriesDate(results: seq<GradingResult>, info: AssignmentInfo, dateStr: string, otherDate: string)
    ensures var report := ReportElements(results, info, dateStr);
      && |report| > 2
      && report[2] == Paragraph("Generated on: " + dateStr, NormalStyle)
    ensures dateStr != otherDate ==> ReportElements(results, info, dateStr) != ReportElements(results, info, otherDate)
  {
    var prefix := "Generated on: ";
    var a, b := ReportElements(results, info, dateStr), ReportElements(results, info, otherDate);
    assert a[2] == Paragraph(prefix + dateStr, NormalStyle);
    assert b[2] == Paragraph(prefix + otherDate, NormalStyle);
    assert (prefix + dateStr)[|prefix|..] == dateStr;
    assert (prefix + otherDate)[|prefix|..] == otherDate;
  }

  /** The report's opening has ten elements. */
  lemma ReportHeadLength(info: AssignmentInfo, dateStr: string)
    ensures |ReportHead(info, dateStr)| == 10
  {
  }

  /** After an opening, the flattened blocks keep each block in place. */
  lemma BlockAfterHead<T>(whole: seq<T>, head: seq<T>, n: nat, blocks: seq<seq<T>>, i: nat)
    requires whole == head + Flatten(blocks) && |head| == n
    requires i < |blocks|
    ensures var off := n + FlatLength(blocks, i);
      && off + |blocks[i]| <= |whole|
      && whole[off..off + |blocks[i]|] == blocks[i]
  {
    var flat, off, len := Flatten(blocks), FlatLength(blocks, i), |blocks[i]|;
    FlattenAt(blocks, i);
    assert off + len <= |flat|;
    assert |whole| == n + |flat|;
    SliceAfter(head, flat, n + off, n + off + len);
  }

  /** `generate_pdf` as written: the date lookup fails before anything is rendered. */
  function GeneratePdf(results: seq<GradingResult>, info: AssignmentInfo): (r: Result<seq<byte>, ExportError>)
    ensures r == Failure(NoDatetimeAttribute)
  {
    Failure(NoDatetimeAttribute)
  }

  /**
   `export_to_pdf` as written: the guard's message, else the failure of
   `generate_pdf`; the download name's clock lookup would fail the same way.
   */
  function ExportToPdf(results: seq<GradingResult>, info: AssignmentInfo): (r: Result<string, ExportError>)
    ensures r.Success? <==> |results| == 0
    ensures r.Success? ==> r.value == NoResultsMessage
    ensures r.Failure? ==> r.error == NoDatetimeAttribute
  {
    if |results| == 0 then Success(NoResultsMessage)
    else
      match GeneratePdf(results, info)
      case Failure(e) => Failure(e)
      case Success(_) => Failure(NoDatetimeAttribute)
  }

  /** The PDF renderer: reportlab's `SimpleDocTemplate.build`, outside the model. */
  type Renderer = seq<Element> -> seq<byte>

  /**
   `export_to_pdf` with the clock's readings given: the guard's message, else
   a PDF download link for the rendered report.
   */
  function ExportToPdfAt(results: seq<GradingResult>, info: AssignmentInfo, dateStr: string, stamp: string,
                         render: Renderer): string {
    if |results| == 0 then NoResultsMessage
    else
      Link("application/pdf", Base64.Encode(render(ReportElements(results, info, dateStr))),
           ExportFilename(stamp, ".pdf"), "Download PDF")
  }

  /**
   The corrected PDF export returns the guard's message exactly for an empty
   list; otherwise its link carries the rendering of the report.
   */
  lemma PdfExportCarriesReport(results: seq<GradingResult>, info: AssignmentInfo, dateStr: string, stamp: string,
                               render: Renderer)
    ensures ExportToPdfAt(results, info, dateStr, stamp, render) == NoResultsMessage <==> |results| == 0
    ensures |results| > 0 ==>
      var payload := PayloadOf(ExportToPdfAt(results, info, dateStr, stamp, render), "application/pdf");
      && payload.Some?
      && Base64.Decode(payload.value) == Success(render(ReportElements(results, info, dateStr)))
  {
    if |results| > 0 {
      assert ExportToPdfAt(results, info, dateStr, stamp, render)[0] != NoResultsMessage[0];
      var pdf := render(ReportElements(results, info, dateStr));
      Base64QuoteFree(pdf);
      PayloadOfLink("application/pdf", Base64.Encode(pdf), ExportFilename(stamp, ".pdf"), "Download PDF");
      Base64.DecodeEncode(pdf);
    }
  }
}
