# Essay grading core, modelled in Dafny

This project models the pure logic behind an essay-grading tool. The tool
sends a photographed essay to a language model and exports the results.
There are two parts.

**Grading client (`openai_utils.py`).** The model covers:

- how `grade_essay` assembles its prompt:
  - a preamble;
  - an optional grade-level block, chosen by substring tests over eight band names;
  - one of five grading approaches, chosen by the leniency dial;
  - optional assignment instructions;
  - one line per rubric criterion;
  - a fixed closing paragraph;
- `count_tokens`, with its fallback of one token per four characters;
- the image token heuristic `estimate_image_tokens`;
- the cost arithmetic of `log_api_usage`;
- the accounting `grade_essay` does around the model call.

**Exports (`export_utils.py`).** The model covers:

- `extract_scores`;
- the CSV text of `create_csv_string` (Python's default `csv` dialect);
- the report elements of `generate_pdf`;
- `get_download_link`, which emits UTF-8 octets as Base64 (RFC 4648) inside an HTML anchor;
- the empty-list guard of `export_to_csv` and `export_to_pdf`.

Each encoder is paired with a decoder, and the round trip is proved:

- a parser for the CSV record syntax of section 2 of RFC 4180;
- a Base64 decoder for section 4 of RFC 4648;
- a strict UTF-8 decoder.

Modules, one per file:

| file | module | what it holds |
|---|---|---|
| outcomes.dfy | `Outcomes` | `Option` (with `GetOr`, Python's `dict.get` default) and `Result` |
| bytes.dfy | `Bytes` | the octet type |
| text.dfy | `Text` | `in` on strings, `str.split`/`str.join` on one character, `str.strip()` emptiness, `str(n)` |
| tokens.dfy | `Tokens` | token counting, image estimate, costs, the usage record |
| prompt.dfy | `Prompt` | the prompt's sections, band selection, leniency buckets, the statement-by-statement builder |
| wording.dfy | `EssayWording` | the prompt's fixed sentences exactly as the source writes them, and facts about them |
| grading.dfy | `Grading` | `grade_essay`'s accounting, with the model's reply as a parameter |
| csv.dfy | `Csv` | the default-dialect CSV writer and an RFC 4180 reader |
| base64.dfy | `Base64` | the RFC 4648 encoder and decoder |
| utf8.dfy | `Utf8` | the UTF-8 encoder and a strict decoder |
| export.dfy | `Export` | score records, the CSV table, the report elements, download links, the export entry points |

The prompt's fixed text is a `Wording` parameter of the builder. The structural
properties therefore hold for any wording. `EssayWording.Source` is the
source's wording, and the facts that depend on its exact sentences are proved
about it.

## Model

| member | source | states |
|---|---|---|
| Tokens.CountTokens | openai_utils.py:31-39 | A successful tokenizer's count is returned unchanged. When the tokenizer fails, the count is the character count divided by four, rounded down (`4n <= len < 4n + 4`). The failure never reaches the caller. |
| Tokens.FallbackAtMostLength | openai_utils.py:36-39 | On the fallback path the count is at most the text's length. It is positive once the text has four characters. |
| Tokens.FallbackExample | openai_utils.py:39 | With a tokenizer that always fails, a 400-character text counts as 100 tokens. |
| Tokens.EstimateImageTokens | openai_utils.py:41-48 | The estimate is at least 85. The part above 85 is 85 per 100 KiB of image, rounded down (two-sided bounds), in exact arithmetic (see Left out for the float difference). |
| Tokens.ImageTokenLandmarks | openai_utils.py:46-48 | An empty image is 85 tokens; an image of exactly 102400 bytes is 170. |
| Tokens.ImageTokensMonotone | openai_utils.py:46-48 | A larger image is never estimated at fewer tokens. |
| Tokens.InputCost | openai_utils.py:52 | The input cost is non-negative, and a million times it is the tokens times 1.10. |
| Tokens.OutputCost | openai_utils.py:53 | The output cost is non-negative, and a million times it is the tokens times 4.40. |
| Tokens.LogApiUsage | openai_utils.py:50-69 | The entry records the tokens, model and function name it was given. Its costs follow the two prices. The total is the sum of the two parts, and each part lies between 0 and the total. |
| Tokens.CostAdditive | openai_utils.py:52-54 | Billing two calls separately costs the same as billing their summed tokens. |
| Tokens.CostMonotone | openai_utils.py:52-54 | More tokens never cost less, and an output token costs four times an input token. |
| Prompt.BucketOf | openai_utils.py:185-215 | Every integer leniency falls in exactly one approach: at most 2, 3-4, 5-6, 7-8, at least 9 (each as an if-and-only-if). |
| Prompt.BucketMonotone | openai_utils.py:185-215 | Turning the dial up never selects a stricter approach. |
| Prompt.SelectBandFirstMatch | openai_utils.py:104-182 | A band is selected exactly when some band name occurs in the grade level. The selected band's name occurs in it, and no band tested earlier has its name in it. |
| Prompt.SelectBandChain | openai_utils.py:108-182 | Selection through the ordered band list equals the source's `if`/`elif` chain of eight substring tests. |
| Prompt.ExactBandSelectsItself | openai_utils.py:108-171 | When no name occurs inside a later-tested name, giving a band's exact name selects that band. |
| Prompt.BandBlockShape | openai_utils.py:109-115 | A band's block is the expectations title, one `- ` bullet per expectation in order, then the band's last line. |
| Prompt.ApproachBlockShape | openai_utils.py:186-191 | An approach's block is one header line, then its guidance as `- ` lines in order. |
| Prompt.LayoutGradeLevel | openai_utils.py:104-182 | A grade-level header appears if and only if the grade level is non-empty. It is followed by the selected band's block, or the generic line when no band matches. The approach comes next. |
| Prompt.LayoutOneApproach | openai_utils.py:184-215 | The prompt has exactly one approach section, and it is the leniency's bucket. |
| Prompt.LayoutInstructions | openai_utils.py:217-221 | The instructions section appears if and only if the instructions are non-empty. It holds them, follows the approach, and precedes the rubric header. |
| Prompt.LayoutRubric | openai_utils.py:221-225 | The prompt opens with the preamble. At its end come the rubric header, one line per criterion in rubric order, and the closing. |
| Prompt.LayoutCriteriaOnly | openai_utils.py:221-223 | Criterion lines occur nowhere but in that run. |
| Prompt.PromptText | openai_utils.py:101-225 | The prompt text is the preamble, grade text, approach block, instructions, rubric header, rubric lines and closing, concatenated in that order. |
| Prompt.PromptEnds | openai_utils.py:221-225 | Whatever the other inputs, the prompt starts with the preamble and ends with the rubric header, the rubric lines and the closing. |
| Prompt.ExpectationsBlock | openai_utils.py:107-182 | The source's `elif` chain produces the block of the band that ordered selection finds, or the generic line. |
| Prompt.ApproachBlock | openai_utils.py:185-215 | The source's threshold comparisons produce the block of the leniency's bucket. |
| Prompt.GradeLevelBlock | openai_utils.py:104-182 | The `if grade_level:` statement adds nothing for an empty level. Otherwise it adds the header line and the selected block. |
| Prompt.AppendRubric | openai_utils.py:221-223 | The rubric loop appends one `- name: description` line per criterion, in order. |
| Prompt.BuildPrompt | openai_utils.py:101-225 | The statement-by-statement builder yields exactly the rendering of the section layout. |
| EssayWording.FiveExpectations | openai_utils.py:108-178 | Every band lists five expectations, so its block is seven lines. |
| EssayWording.BandLimits | openai_utils.py:115-178 | Seven bands end with a "DO NOT expect" line. The graduate band ends with its "Hold to high academic standards" line instead. |
| EssayWording.Adjustments | openai_utils.py:185-215 | The strict approaches end with a "Deduct" bullet and the lenient ones with an "Add" bullet. The balanced approach has neither. |
| Prompt.ApproachBulletInPrompt | openai_utils.py:184-215 | For any wording, each guidance bullet of the leniency's approach occurs in the prompt as a `- ` line of its own. |
| EssayWording.AdjustmentInPrompt | openai_utils.py:185-215 | The prompt for leniency at most 2 carries "- Deduct 15-25% from what you would normally score the essay", for 3-4 the 5-15% deduction, for 7-8 "Add 5-15% to", and for 9 and above "Add 15-25% to". |
| EssayWording.GuidanceCounts | openai_utils.py:185-215 | The approaches have 5, 4, 3, 4 and 5 guidance bullets. |
| EssayWording.SourceNamesIndependent | openai_utils.py:108-171 | No band name of the source occurs inside the name of a band tested after it. |
| EssayWording.SelectedLevelSelectsItsBand | openai_utils.py:108-178 | Each of the eight exact band names selects its own band's expectations. |
| Grading.InputTokens | openai_utils.py:227-230 | Input tokens are the prompt's tokens (counted with the default tokenizer model) plus the image estimate, so at least 85. |
| Grading.GradeEssay | openai_utils.py:227-264 | The reply is returned unchanged. The input tokens are the built prompt's count plus the image estimate, and the output tokens are the reply's count. The usage is logged under "o4-mini-2025-04-16" and "grade_essay", with the input priced at 1.10 and the output at 4.40 per million tokens, and the total cost equal to input plus output cost, so at least 85 input tokens' worth. The logged entry is exactly the one the cost lemmas below speak about. |
| Grading.GradingCostFloor | openai_utils.py:227-264 | Every grading call costs at least 85 input tokens' worth. |
| Grading.GradingCostGrowsWithImage | openai_utils.py:227-264 | A larger image never makes the same request cheaper. |
| Text.SplitShape | export_utils.py:115 | No piece of `split('\n')` holds a newline, and joining the pieces with newlines gives the text back. |
| Text.SplitJoin | export_utils.py:115 | Splitting a join of separator-free pieces gives the pieces back. |
| Text.NonBlankShape | export_utils.py:116-118 | The kept lines are non-blank, and every non-blank line is kept as many times as it occurs. They appear in the input's order. |
| Text.NonBlankCounts | export_utils.py:116-118 | Each non-blank line occurs in the output as often as in the input, and a blank line not at all. |
| Text.DecimalRoundTrip | export_utils.py:108 | Reading back the decimal rendering of `i+1` gives `i+1`. |
| Export.ExtractScores | export_utils.py:14-31 | One record per result, in order. The name defaults to "Unnamed Student" and the feedback to "". The score is always "N/A". |
| Export.Table | export_utils.py:39-49 | The header (Student Name, Total Score, Feedback), then one row per result in input order. |
| Export.WriteHeader | export_utils.py:39-42 | The header line is the text of the table's first row: the three field names, in the writer's order. |
| Export.CreateCsvString | export_utils.py:33-51 | The writer loop emits the header line, then each record's line in order. The result is the CSV text of the table. |
| Csv.ParseWritten | export_utils.py:41-51 | Reading the written CSV text with the RFC 4180 reader gives back every row in order, including quoted fields and doubled quotes. |
| Export.CsvReadsBack | export_utils.py:39-51 | The CSV text reads back as the header and, per result in order, its name or default, "N/A", and its feedback or "". |
| Export.ExportToCsv | export_utils.py:147-159 | As written: the "No results to export" message exactly for an empty list. Otherwise it fails on the `datetime.datetime` lookup. |
| Export.GeneratePdf | export_utils.py:53-126 | As written: the date lookup at line 90 fails before anything is rendered. |
| Export.ExportToPdf | export_utils.py:161-173 | As written: the message exactly for an empty list, otherwise the failure of `generate_pdf`. |
| Export.PayloadOfLink | export_utils.py:144 | A quote-free payload is found again in the anchor text, whatever the file name and link text. |
| Utf8.DecodeEncode | export_utils.py:140-141 | UTF-8 decoding of `str.encode()`'s octets gives the string back. |
| Base64.Rfc4648Vectors | export_utils.py:143 | The encoder gives the test vectors of section 10 of RFC 4648 ("" to "foobar", e.g. "foo" as `Zm9v`, "f" as `Zg==`). So the bit layout is pinned independently of the project's decoder. |
| Base64.EncodeLength | export_utils.py:143 | The encoding has four characters per started group of three octets. |
| Base64.EncodeChars | export_utils.py:143-144 | The encoding uses only the alphabet and `=`, so never a quote that would end the `href`. |
| Base64.TripleRoundTrip | export_utils.py:143 | A group of three octets is written as four alphabet characters that decode back to the same three octets. |
| Base64.PairRoundTrip | export_utils.py:143 | A final pair of octets is written as three characters and one `=`, which decode back to the pair. |
| Base64.SingleRoundTrip | export_utils.py:143 | A final single octet is written as two characters and two `=`, which decode back to the octet. |
| Base64.DecodeEncode | export_utils.py:143 | Decoding the encoding gives back the octets, for every octet string. |
| Export.DownloadLinkCarriesContent | export_utils.py:128-145 | The link's payload decodes to the content's octets, and for text content those octets decode back to the text. |
| Export.CsvExportCarriesTable | export_utils.py:147-159 | Corrected export: the message is returned if and only if the list is empty. Otherwise the link's payload decodes (Base64, then UTF-8, then CSV) to the table of the results. |
| Export.StudentBlockShape | export_utils.py:107-120 | A student's block is the name paragraph, the feedback heading, one paragraph per kept feedback line in order, and a 20-point spacer. |
| Export.FeedbackLinesShape | export_utils.py:114-118 | The lines shown are exactly the feedback's non-blank lines, each as often as it occurs, in order, none holding a newline. The split they come from joins back to the feedback. |
| Export.PdfDefaultName | export_utils.py:107-108 | An unnamed student is "Student " and their 1-based position, which differs from the CSV's "Unnamed Student". |
| Export.PdfDefaultNamesDiffer | export_utils.py:107-108 | Unnamed students at different positions get different report names. |
| Export.ReportCarriesDate | export_utils.py:89-91 | The report's third element is the "Generated on:" paragraph with the clock's reading, whatever the results, so different readings give different reports. |
| Export.ReportHeadLength | export_utils.py:84-105 | The report's opening has ten elements. |
| Export.ReportStudentOrder | export_utils.py:82-120 | After the opening, each student's block appears unchanged, after the blocks of the students before it. |
| Export.PdfExportCarriesReport | export_utils.py:161-173 | Corrected export: the message is returned if and only if the list is empty. Otherwise the link's payload decodes to the renderer's output for the report elements. |

## Left out

- The network call to the model (openai_utils.py:232-256). The model's reply is a parameter of `Grading.GradeEssay`.
- The tokenizer library. It is an oracle from (model name, text) to an optional count.
  - `count_tokens(prompt)` asks for its default model "gpt-4o", not the model the request goes to, and the model keeps that.
- Logging, the JSON log line, the timestamp in the usage entry, and the execution-time measurement. These are I/O and clock readings; the usage entry has no timestamp field.
- The cost summary's `$%.6f`, `:.2f` and thousands-separator formatting. Costs are exact `real`s.
- Tokens.EstimateImageTokens: computes `85 + floor(85 * size / 102400)` exactly. The source divides first and multiplies second, in double precision: `int(85 * (size / (100 * 1024))) + 85`. Wherever `17 * size / 20480` is a whole number, the double product can land just below it and `int()` then gives one less. This happens already at small sizes: at 143360 bytes, `143360 / 102400` is the double just below 1.4 and 85 times it is just below 119, so the source gives 203 where the model gives 204.
- Reading and Base64-encoding the image file (`encode_image`). Only its size in bytes enters the model.
- reportlab. Paragraph styles are three named tags, and `doc.build` is a `Renderer` function parameter from elements to octets.
- The clock readings in the corrected exports. They are given as already formatted strings (`%Y-%m-%d %H:%M:%S` and `%Y%m%d_%H%M%S`).
- Lone surrogates in strings, which Python's `str.encode()` rejects. Dafny characters are Unicode scalar values, so every modelled string encodes.
- A row with no fields in the CSV reader. The writer never emits one, since every row here has three fields.
- The Streamlit UI (`app.py`). Its default rubric and grade-level list are only inputs to the builder.
- EssayWording.SourceNamesIndependent: proves only that no earlier-tested band name occurs inside a later one. This is the direction selection depends on. The converse (no later name inside an earlier one) is not stated.
- Export.ReportStudentOrder: states the position of each student's block but not that nothing else follows the last block. That follows from `ReportElements` being the opening followed by the flattened blocks.

## Findings

| source | as written | input that shows it | evidently intended | confidence | as-written member | corrected member |
|---|---|---|---|---|---|---|
| export_utils.py:156 | `datetime` is imported as the class (line 7), so `datetime.datetime.now()` raises `AttributeError` | any non-empty list, e.g. `[{"student_name": "A", "grading_result": "ok"}]` | `datetime.now()`: a CSV download link named with the current time | high; not executed | Export.ExportToCsv | Export.CsvExportCarriesTable |
| export_utils.py:90 | the same lookup in `generate_pdf` raises at line 90, after the title and a spacer are appended but before the document is built or anything is returned | any list and any assignment info | `datetime.now()`: the report carries its generation date | high; not executed | Export.GeneratePdf | Export.ReportCarriesDate |
| export_utils.py:170 | `export_to_pdf` reaches the failing `generate_pdf` (and the same lookup again at 170) | any non-empty list | a PDF download link for the rendered report | high; not executed | Export.ExportToPdf | Export.PdfExportCarriesReport |

In the corrected members the clock's formatted reading is a parameter:

- `Export.ExportToCsvAt` is `export_to_csv` with the stamp given.
- `Export.ReportElements` is `generate_pdf`'s element list with the date given.
- `Export.ExportToPdfAt` is `export_to_pdf` with the date and stamp given.

The rest of the model uses these versions.
