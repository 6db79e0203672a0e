# Johnny Portal: report assembly and trust summaries, in Dafny

This project models the Johnny Portal's own logic and proves properties of the model. The portal is a family trust and wellness dashboard on Next.js with a hosted row store. The logic covered is:

- **The three PDF report routes**:
  - `GET /api/trust/export`: the trust summary report.
  - `GET /api/export` and `GET /api/report`: the wellness progress report.

  Each route takes the rows the store returns in ascending `created_at` order, computes sums and averages, and drives a streaming PDF writer through a fixed sequence of calls. It then drains the writer's output stream into one buffer and answers with the PDF or with a JSON error.
- **The trust pages' summaries**:
  - the budget progress card, with its clamped percentage, unclamped remainder and cap editor;
  - the dashboard summary against a fixed 80000 cap;
  - the summary header;
  - the analytics overview, with its type sums, pie and bar projections and CSV export.
- **The monthly chart**: twelve seeded month buckets, filled in place from the rows. A month outside the window gets a new bucket.
- **The distribution trend line**.
- **The middleware gate** that sends app routes without an access token to `/signin`.

The model's conventions:

- **Amounts** are `real`. A null column is `Option.None`. Every `amount || 0`, `amount ?? 0` and `sum + amount` reads a null amount as 0.
- **Formatted text** is a sequence of `Piece`s. Every library formatter is a constructor of `Piece`: a locale date or date-time, `toFixed(2)`, USD currency, a number interpolated into a template. The model therefore says which value is formatted how, not which characters the locale produces.
- **The PDF writer** is the class `PdfWriter.Writer`. Its fields are the current font size, color, font, registered fonts, page count, piped/ended flags and the blocks written so far. Each route method is proved to leave exactly `[first page] + Document(...)` in it. `Document` is a function from the rows.
- **The output stream** is a sequence of events (`data` chunks, `end`, `error`). `PdfStream.Buffer` is the routes' listener loop, proved equal to the `Drain` specification. Lemmas show that the resolved buffer is the in-order concatenation of every chunk, and what an `error` does with and without a listener.
- **Inputs from outside the code** are parameters of the handlers:
  - the store's answers;
  - whether the document library throws (`PdfWriter.Fault`), either while the document is created or at a later call;
  - whether the font file exists, and its path;
  - the fetched font bytes;
  - the clock;
  - the stream's events;
  - the month a date string falls in.

Properties of the code as written that the proofs exhibit:

- `TrustExport.OneTxLinePerRow`: in the trust report, the first note sets the size to 10 point, and nothing sets it back. Every later transaction line is therefore 10 point, not 11.
- `ExportRoute.StreamErrorNeverAnswers`: `/api/export` registers no `error` listener on the stream. A stream error therefore leaves its promise unsettled, and the request gets no response. Node's event emitter also rethrows an `error` that has no listener, as an uncaught exception outside the handler's `try`. The model records only the missing response. `/api/report` answers 500 in the same case (`ReportRoute.StreamErrorGives500`).
- `Budget.Percent`: when the stored cap of the budget card is 0, the percentage is `NaN` (for a total of 0), `-Infinity` (for a negative total) or 100 (for a positive total).

Differences between the routes:

- The trust export does not reject an empty result. It renders zero summaries and no transaction lines (`TrustExport.EmptyReportHasZeroSummaries`). The wellness routes answer 404 instead.
- In both wellness routes, a missing font file is answered with 500 naming the path. There is no fallback font. Only the trust export falls back to the built-in font, when its font fetch or `doc.font` throws.
- Only the trust export sends `Cache-Control: no-store`. Only the trust export quotes the attachment's file name.

Files (one module each):

| file | content |
|---|---|
| `base.dfy` | `Option`, bytes, errors, query results, formatted pieces, `Buffer.concat` |
| `rows.dfy` | the row types and the shared filter, sum, count and guarded mean |
| `pdf_writer.dfy`, `pdf_stream.dfy`, `http.dfy` | the document writer, the stream drain and the responses |
| `report_layout.dfy` | the report head shared by the three routes |
| `trust_export.dfy`, `wellness.dfy`, `export_route.dfy`, `report_route.dfy` | the routes |
| `budget.dfy`, `budget_progress.dfy`, `trust_summary.dfy`, `summary_header.dfy` | the budget and summary cards |
| `trust_charts.dfy`, `monthly_chart.dfy`, `distribution_chart.dfy` | the charts |
| `middleware.dfy` | the route gate |

## Model

| member | source | states |
|---|---|---|
| Base.ConcatPush | src/app/api/trust/export/route.ts:86-87 | pushing a chunk appends exactly its bytes to the concatenation |
| Base.ConcatLength | src/app/api/trust/export/route.ts:87 | the concatenated buffer is exactly as long as all chunks together |
| Base.ConcatPlacesChunk | src/app/api/export/route.ts:80-82 | chunk k appears in the buffer right after the bytes of the chunks before it |
| Rows.OfKind | src/app/api/trust/export/route.ts:25 | the filter keeps only rows of the type and never grows the list |
| Rows.GuardedMean | src/app/api/trust/export/route.ts:27-30 | 0 when there are no rows; otherwise the mean times the count is the total |
| Rows.Loaded | src/app/trust/TrustChart.tsx:24-25 | a query error keeps the previous rows; null data gives []; otherwise the data (components/TrustChart.tsx does the same) |
| Rows.TotalOfIsSumWhere | src/app/api/trust/export/route.ts:25-26 | filter-then-reduce over `amount \|\| 0` equals the sum over all rows of the amount where the type matches, else 0 |
| Rows.CountOfIsCountWhere | src/components/TrustSummary.tsx:31 | the filtered length counts the rows of the type and no other row |
| Rows.OfKindAppend | src/app/trust/SummaryHeader.tsx:28 | the filter splits over concatenation: the order of rows is kept |
| Rows.OfKindMembers | src/app/trust/TrustChart.tsx:31-32 | a row is kept exactly when it is one of the rows and has the type |
| Rows.SumAmountsAppend | src/app/trust/SummaryHeader.tsx:29 | the reduce splits over concatenation |
| Rows.TotalOfAppend | src/components/TrustCharts.tsx:45-50 | totals and counts of a type add up over concatenation |
| Rows.OtherKindNeverContributes | src/components/TrustCharts.tsx:45-50 | a row of another type changes neither the total nor the count of a type |
| Rows.SumAmountsNonNegative | src/components/TrustSummary.tsx:24-27 | non-negative amounts give a non-negative total |
| Rows.SummarizeDistributions | src/components/TrustSummary.tsx:23-31 | total is the distributions' sum (null as 0), count the number of distribution rows, and the average is 0 with no distributions and otherwise total / count |
| PdfWriter.Writer.constructor | src/app/api/trust/export/route.ts:34 | a new document: 12-point black built-in text, no fonts registered, one page (and its block) exactly when autoFirstPage is on |
| PdfWriter.Writer.Pipe | src/app/api/trust/export/route.ts:36 | the document is piped |
| PdfWriter.Writer.RegisterFont | src/app/api/report/route.ts:41 | the name now maps to the font file, other names unchanged |
| PdfWriter.Writer.UseFont | src/app/api/report/route.ts:45 | only a registered name can be selected; the font is set |
| PdfWriter.Writer.AddPage | src/app/api/report/route.ts:44 | one more page, opened with the fonts registered at that moment |
| PdfWriter.Writer.FontSize | src/app/api/trust/export/route.ts:71 | the size applies until changed |
| PdfWriter.Writer.FillColor | src/app/api/trust/export/route.ts:77 | the color applies until changed |
| PdfWriter.Writer.Text | src/app/api/trust/export/route.ts:76 | a line is appended in the current size, color and font; there must be a page |
| PdfWriter.Writer.MoveDown | src/app/api/trust/export/route.ts:78 | a gap is appended |
| PdfWriter.Writer.End | src/app/api/trust/export/route.ts:81 | the document is ended |
| PdfWriter.Lines | src/app/api/trust/export/route.ts:56-79 | the lines of a document are lines and no more than its blocks |
| PdfWriter.LinesAppend | src/app/api/trust/export/route.ts:56-79 | the lines of two block runs are the lines of each, in order |
| PdfStream.Buffer | src/app/api/report/route.ts:81-86 | the data/end/error listeners settle exactly as `Drain` says |
| PdfStream.Chunks | src/app/api/report/route.ts:83 | one pushed chunk per data event, in order |
| PdfStream.SettleOverData | src/app/api/report/route.ts:82-83 | data events before a settling event only push their chunks |
| PdfStream.ResolvesWithAllChunks | src/app/api/report/route.ts:83-84 | chunks then end resolve with the concatenation of exactly those chunks, chunk k right after the bytes of the chunks before it; later events are ignored |
| PdfStream.ErrorBeforeEndGivesNoBuffer | src/app/api/report/route.ts:85 | an error before end rejects with that error when listened for, and never settles otherwise; no partial buffer |
| PdfStream.NoEndStaysPending | src/app/api/export/route.ts:79-83 | a stream that stops without end never resolves |
| ReportLayout.WriteHead | src/app/api/trust/export/route.ts:57-70 | the title, Generated, three summary lines and section header calls append exactly `Head(...)` and leave 14 point in effect |
| ReportLayout.LinesOfHead | src/app/api/export/route.ts:42-62 | the head's lines are title (18, centered), Generated (12), the three summaries (12), the section header (14, underlined), in that order and nothing else |
| ReportLayout.RowLinesAppend | src/app/api/trust/export/route.ts:73-79 | the date-led lines of two block runs are those of each, in order |
| ReportLayout.HeadHasNoRowLines | src/app/api/trust/export/route.ts:57-70 | no line of the head starts with a date when the summaries start with literal text |
| TrustExport.Summarize | src/app/api/trust/export/route.ts:25-30 | totals equal the reference sums of distributions and of expenses (null as 0); the average is 0 without distributions, otherwise total / count |
| TrustExport.WriteRow | src/app/api/trust/export/route.ts:74-78 | one row appends its line, the gray 10-point quoted note exactly when the note is truthy, and a 0.3 gap; the note sets 10 point and nothing resets it |
| TrustExport.Render | src/app/api/trust/export/route.ts:56-81 | the document receives exactly `Document(summary, rows)` and is ended |
| TrustExport.Get | src/app/api/trust/export/route.ts:12-103 | the response is `Respond(query, fault, events)`; no document on a query error or a throw from the library; otherwise a piped, ended, uncompressed, 50-margin document holding the first page and the report, in the fetched font or the built-in one when the font fetch failed |
| TrustExport.EmptyReportHasZeroSummaries | src/app/api/trust/export/route.ts:22-30 | no rows (null data included) give three zero summaries and a report with only the head |
| TrustExport.LineOrder | src/app/api/trust/export/route.ts:57-79 | the lines are title, Generated, Total Distributed, Total Expenses, Average Distribution, the Transactions header, then the rows' lines |
| TrustExport.SizeAfterNotes | src/app/api/trust/export/route.ts:71-77 | after some rows the size is 10 exactly when one of them had a truthy note, else 11 |
| TrustExport.OneTxLinePerRow | src/app/api/trust/export/route.ts:73-79 | exactly one date-led line per row, in fetch order, with that row's date, label ('Distribution' only for type distribution, else 'Expense') and `amount \|\| 0`; 11 point until a note came before, 10 from then on |
| TrustExport.RowLineCount | src/app/api/trust/export/route.ts:76-77 | the rows give one line each plus one per truthy note |
| TrustExport.OnlyTimestampDiffers | src/app/api/trust/export/route.ts:59 | two renders of the same rows differ only in the Generated line |
| TrustExport.ErrorsGive500 | src/app/api/trust/export/route.ts:99-101 | a query error, a throw from the library (other than the caught `doc.font`) or a stream error gives 500 with its message, or "Export failed" without one |
| TrustExport.SuccessIsConcatenatedPdf | src/app/api/trust/export/route.ts:84-98 | a successful query and an ending stream give the PDF: the concatenated chunks with the three headers |
| Wellness.Average | src/app/api/export/route.ts:48-53 | the average times the number of rows (null fields included) is the sum of `field \|\| 0` |
| Wellness.Summarize | src/app/api/report/route.ts:53-56 | the three averages each satisfy that relation for mood, sleep and exercise |
| Wellness.WriteEntry | src/app/api/export/route.ts:64-72 | one entry appends its 12-point line, the gray 10-point quoted journal exactly when truthy, and a 0.5 gap |
| Wellness.WriteEntries | src/app/api/report/route.ts:66-77 | the loop appends every entry's blocks in order |
| Wellness.Render | src/app/api/export/route.ts:42-76 | the document receives the head with the three average lines, then every entry, and is ended |
| Wellness.FieldSumAppend | src/app/api/export/route.ts:49 | field sums add up over concatenation |
| Wellness.NullStaysInDenominator | src/app/api/export/route.ts:48-53 | a null field adds 0 to the sum but one to the count |
| Wellness.AllNullAveragesZero | src/app/api/export/route.ts:48-53 | all-null fields average 0, never NaN |
| Wellness.AverageBounds | src/app/api/report/route.ts:53-56 | fields between 0 and hi average between 0 and hi |
| Wellness.AverageExamples | src/app/api/export/route.ts:48-49 | moods 4 and 8 average 6; 4 and null average 2 |
| Wellness.NaExactlyForNull | src/app/api/export/route.ts:66 | "N/A" appears exactly for a null field; 0 renders as the number 0 |
| Wellness.EntryLinesOfEntries | src/app/api/report/route.ts:66-71 | the date-led lines of the entries are one per entry, in order |
| Wellness.OneEntryLinePerRow | src/app/api/export/route.ts:64-67 | exactly one date-led line per row of the report, in fetch order, 12 point, with that row's text |
| Wellness.LineOrder | src/app/api/export/route.ts:42-62 | title, Generated, Average Mood, Average Sleep (hours), Average Exercise (minutes), the Entries header, then the entries |
| Wellness.EntryLineCount | src/app/api/export/route.ts:68-71 | entries give one line each plus one per truthy journal |
| Wellness.SeparatorOnlyChangesEntryLines | src/app/api/report/route.ts:67-68 | the two separators give the same blocks except on the entry lines |
| ExportRoute.Get | src/app/api/export/route.ts:8-97 | the response is `Respond(...)`; no document on a query error, null/empty data, a throw while the document is created, or a later throw when the font is present; with the font missing the document holds only its first page and is never piped or ended; otherwise RobotoMono is registered and selected on the first page and the document holds the report |
| ExportRoute.NoDataIsNotFound | src/app/api/export/route.ts:20-22 | null or empty data gives 404 "No data available" whatever the font and stream |
| ExportRoute.ErrorsGive500 | src/app/api/export/route.ts:19-96 | a query error gives 500 with its message; with data: a throw while the document is created gives 500 with its message; otherwise a missing font gives 500 "Font not found at" the path; otherwise a throw from a later library call gives 500 with its message |
| ExportRoute.SuccessIsConcatenatedPdf | src/app/api/export/route.ts:79-92 | data and font present and an ending stream give the concatenated chunks as the PDF |
| ExportRoute.StreamErrorNeverAnswers | src/app/api/export/route.ts:79-83 | with no error listener, a stream error leaves the handler without a response |
| ReportRoute.NewSafeDocument | src/app/api/report/route.ts:9-16 | the document opens no page of its own |
| ReportRoute.Get | src/app/api/report/route.ts:18-99 | the response is `Respond(...)`; no document on a query error, null/empty data, a throw while the document is created or piped, or a later throw when the font is present; with the font missing a piped document with no page; otherwise the first page is opened after RobotoMono is registered, the font selected on it, and the document holds the report |
| ReportRoute.NoDataIsNotFound | src/app/api/report/route.ts:30-31 | null or empty data gives 404 "No data available" whatever the font and stream |
| ReportRoute.ErrorsGive500 | src/app/api/report/route.ts:29-97 | a query error gives 500 with its message; with data: a throw while the document is created or piped gives 500 with its message; otherwise a missing font gives 500 "Font file not found at" the path; otherwise a throw from a later library call gives 500 with its message |
| ReportRoute.StreamErrorGives500 | src/app/api/report/route.ts:81-86 | a stream error rejects: 500 with the stream's error, never a partial PDF |
| ReportRoute.SuccessIsConcatenatedPdf | src/app/api/report/route.ts:81-94 | data and font present and an ending stream give the concatenated chunks as the PDF |
| MonthlyChart.Seeds | src/components/TrustChart.tsx:55-59 | twelve keys, oldest first, key j being 11 - j months back |
| MonthlyChart.ChartOf | src/components/TrustChart.tsx:72 | one bucket per key, in key order, each holding its month's totals |
| MonthlyChart.SeedsDistinct | src/components/TrustChart.tsx:55-58 | the twelve seeded keys are pairwise different |
| MonthlyChart.SeedWindow | src/components/TrustChart.tsx:54-57 | the seeds are the twelve consecutive months ending with the current one, each a month 0-11 |
| MonthlyChart.ChartData | src/components/TrustChart.tsx:49-73 | the seeding loop, the row loop updating buckets in place, and `Array.from(values)` give exactly `Chart(now, rows)` |
| MonthlyChart.MonthTotalSnoc | src/components/TrustChart.tsx:67-69 | one more row adds its amount to its own month's total of its type only |
| MonthlyChart.KeysAfterFacts | src/components/TrustChart.tsx:61-66 | keys stay distinct, the seeds stay first and in order, and the keys are the seeds plus the rows' months |
| MonthlyChart.ChartLength | src/components/TrustChart.tsx:55-72 | 12 buckets plus one per distinct row month outside the window |
| MonthlyChart.ChartMonths | src/components/TrustChart.tsx:64-66 | the first twelve buckets are the seeded months; later ones are row months outside the window, in the order of the first row naming each; no month twice |
| MonthlyChart.FirstSeen | src/components/TrustChart.tsx:61-66 | the index of the first row of a month: that row names it and no earlier one does; the row count exactly when no row names it |
| MonthlyChart.KeysInFirstSeenOrder | src/components/TrustChart.tsx:61-66 | the keys the rows add to the Map are row months, in strictly increasing order of the first row naming them |
| MonthlyChart.RowsLandInTheirMonth | src/components/TrustChart.tsx:62-67 | every row's month has a bucket |
| MonthlyChart.OnlyOwnBucketChanges | src/components/TrustChart.tsx:67-69 | a distribution row adds only to its bucket's distributions, an expense row only to its expenses, any other row to nothing; other buckets unchanged |
| MonthlyChart.SumOverIsTotal | src/components/TrustChart.tsx:61-70 | over distinct keys covering every row's month, the month totals add up to the type's total |
| MonthlyChart.Conservation | src/components/TrustChart.tsx:61-72 | the buckets' distributions add up to the distribution rows' total (null as 0) and their expenses to the expense rows' total |
| Budget.Percent | src/app/trust/BudgetProgress.tsx:46-49 | never above 100; for a positive cap a number that is 100 exactly when the total reaches the cap and otherwise total * 100 / cap; for a 0 cap 100, -Infinity or NaN |
| BudgetProgress.Compute | src/app/trust/BudgetProgress.tsx:37-56 | the total is the distributions' sum (null as 0); percentage and remainder agree with total and cap |
| BudgetProgress.Card.constructor | src/app/trust/BudgetProgress.tsx:18-26 | all zeros, not editing, blank input |
| BudgetProgress.Card.FetchBudgetProgress | src/app/trust/BudgetProgress.tsx:29-57 | a missing settings row or null transactions leaves the summary unchanged; otherwise it is computed from the rows and the stored cap; the bar stays at most 100 |
| BudgetProgress.Card.StartEditing | src/app/trust/BudgetProgress.tsx:144 | editing starts |
| BudgetProgress.Card.CancelEditing | src/app/trust/BudgetProgress.tsx:129 | editing ends |
| BudgetProgress.Card.SetNewCap | src/app/trust/BudgetProgress.tsx:120 | the input holds the typed number |
| BudgetProgress.Card.HandleUpdateCap | src/app/trust/BudgetProgress.tsx:62-85 | a blank or non-positive cap, or a failed update, changes nothing; a success sets the cap, recomputes percentage and remainder from the unchanged total, ends editing and clears the input |
| BudgetProgress.OnlyDistributionsCount | src/app/trust/BudgetProgress.tsx:37-44 | adding an expense or other row changes nothing in the summary |
| BudgetProgress.NonNegativeAmountsFillFromZero | src/app/trust/BudgetProgress.tsx:41-55 | with no negative amount and a positive cap, the bar is a number of at least 0 and the remainder is at most the cap |
| BudgetProgress.OverspentIsNegative | src/app/trust/BudgetProgress.tsx:46-55 | distributions above the cap leave a negative remainder while the bar shows 100 |
| TrustSummary.Dashboard.constructor | src/components/TrustSummary.tsx:7-10 | zeros and the 80000 cap |
| TrustSummary.Dashboard.FetchTotals | src/components/TrustSummary.tsx:13-32 | an error or null data leaves total, average and count as they were; otherwise they are the distributions' summary |
| TrustSummary.Dashboard.Remaining | src/components/TrustSummary.tsx:37 | remaining plus total is the cap, unclamped |
| TrustSummary.Dashboard.PercentShown | src/components/TrustSummary.tsx:38 | a number at most 100, 100 exactly when the total reaches 80000 |
| SummaryHeader.FetchSummary | src/app/trust/SummaryHeader.tsx:17-37 | an error keeps the previous summary; null data gives zeros; otherwise the distributions' total (null as 0), count and guarded average |
| TrustCharts.GetFilterDate | src/components/TrustCharts.tsx:79-85 | '7D' moves 7 days back, '30D' 30 days back, 'YTD' to January 1, anything else stays at now |
| TrustCharts.PieData | src/components/TrustCharts.tsx:108-111 | two slices: Distributions carrying the distributions' sum, then Expenses carrying the expenses' sum |
| TrustCharts.BarData | src/components/TrustCharts.tsx:113-120 | one bar per transaction, in order, with its short date, amount and type |
| TrustCharts.Overview.constructor | src/components/TrustCharts.tsx:23-25 | no transactions, zero sums, the 30D filter |
| TrustCharts.Overview.SetFilter | src/components/TrustCharts.tsx:135 | the chosen filter is kept |
| TrustCharts.Overview.FetchTransactions | src/components/TrustCharts.tsx:30-53 | the cutoff comes from the filter; an error changes nothing; null data empties the list and keeps the sums; otherwise the list is the data and the sums are the distribution and expense totals |
| TrustCharts.Overview.HandleExportCsv | src/components/TrustCharts.tsx:90-103 | an alert exactly when there are no transactions; otherwise one Date/Type/Amount record per transaction, in order, saved as trust-transactions-<filter>.csv |
| TrustCharts.PieOfFetch | src/components/TrustCharts.tsx:45-52 | after a fetch the slices are the fetched rows' distribution and expense totals |
| TrustCharts.OtherRowsMoveNoSlice | src/components/TrustCharts.tsx:45-50 | a row that is neither a distribution nor an expense moves neither sum |
| TrustCharts.BarDataAppend | src/components/TrustCharts.tsx:113 | the bars of a concatenation are the bars of each part |
| DistributionChart.DistributionData | src/app/trust/TrustChart.tsx:31-36 | one point per distribution row, in order, the i-th from the i-th distribution row |
| DistributionChart.DistributionDataAppend | src/app/trust/TrustChart.tsx:31-33 | order is preserved over concatenation |
| DistributionChart.PointsAreDistributions | src/app/trust/TrustChart.tsx:31-35 | every point comes from a distribution row of the data, and every distribution row gives one |
| DistributionChart.DashForMissingDate | src/app/trust/TrustChart.tsx:34-35 | the dash exactly for a null or empty date; the amount is copied |
| Middleware.Gate | middleware.ts:4-13 | redirect exactly when the path starts with "/app" and the token cookie is absent or empty; the target is the same URL with only the path set to "/signin" |
| Middleware.PrefixIsLiteral | middleware.ts:5 | "/apple" is gated like "/app/home"; "/ap" is not |
| Middleware.TokenDecides | middleware.ts:6-7 | on an app route a non-empty token passes and an empty one is redirected |
| Middleware.RedirectTargetPasses | middleware.ts:8-12 | the redirect target is not gated again |

## Left out

- A throw from the document library is an input: the fault, and whether it happens at creation or later. Which later call throws, and what the document holds at that moment, is not modelled. Each route's catch discards the document and answers 500 with the error, so `Get` returns no document in that case.

- The PDF bytes the writer produces, page layout and line wrapping, and the font files' contents. These reach the model only as stream events and as the blocks the routes write.
- The row store. The queries, their ordering by `created_at`, and the `.gte` date filter of the analytics overview are done by the store; the answers are inputs. Client construction, cookies and sessions are not modelled.
- File-system and environment access. `path.join`, `path.resolve`, `fs.existsSync`, the trust export's base-URL choice and its font `fetch` are parameters: the path, whether the file exists, and the font bytes or their absence.
- `console` logging, and therefore the trust export's `err?.message || err` log line.
- Locale formatting and date parsing. `toLocaleString`, `toLocaleDateString`, `toFixed` and the currency format are `Piece` constructors. The month a date falls in is the parameter `monthOf` of the monthly chart.
- IEEE floating point. Amounts are exact reals, so rounding, `-0` and a `NaN` from non-numeric amounts are not modelled. `Budget.Percent` models Infinity and NaN only for a zero cap.
- TrustCharts.GetFilterDate: the date moved by `setDate` and `setMonth` is abstract. The model names the move (7 days back, 30 days back, January 1, none), not the resulting instant or its ISO string.
- `Papa.unparse`, `Blob` and `saveAs`. The CSV outcome is the list of records and the file name.
- Realtime channel subscriptions and the re-fetches they trigger. React rendering and loading flags are not modelled either.
- BudgetProgress.Card.SetNewCap: `Number()` of the input's value is taken to be a number. The `typeof` test is kept as the blank check; a `NaN` input is not modelled.
- The middleware's `matcher` configuration. The gate is modelled for every request it is called on.
- A wellness row's `created_at` is modelled as always present, as the wellness report formats it unconditionally.
