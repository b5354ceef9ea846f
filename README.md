# Dashboard job handlers in Dafny

This project models the part of the scraping and analysis dashboard that holds
real logic. That logic lives in five React components.

- **Streaming analysis** (`components/llm-processing.tsx`, module
  `StreamAnalysis`). Starting an analysis resets the panel and posts the file.
  It then reads the reply as a stream of chunks. The chunks are framed into
  newline-delimited JSON records through a buffer that keeps the incomplete
  tail. Each record is folded into the panel by its `type`. The `catch` counts
  non-abort errors, and the `finally` clears the processing flag and the abort
  controller. Stopping aborts the controller when one exists.
- **URL list scraper** (`components/url-list-scraper.tsx`, module `Scraping`).
  The non-blank lines of the text area are trimmed and scraped one after the
  other. Each iteration appends a pending status item, patches every item with
  that URL, adds two generated files per success, counts processed files and
  errors, and sets the progress. The `finally` stamps the elapsed time and a
  success rate.
- **URL list processor** (`components/url-list-processor.tsx`, module
  `Processing`). Starting lists every non-blank line, untrimmed, as pending.
  It also schedules one simulated job per line. Each job later settles its
  URL's items, adds one JSON file on success and counts itself.
- **Results display** (`components/results-display.tsx`, module `Results`).
  This is the split of result file names into JSON and Markdown lists.
- **Configuration form** (`components/config-settings.tsx`, module `Config`).
  This is the single-field update with numeric coercion.

Two modules are shared. `Text` holds JavaScript's `trim` and `split("\n")`,
the buffer framing and the line filter. `Common` holds status items, the
keyed status-item update, files, exceptions and the abort controller.

Each stateful handler is a method of a class whose fields mirror the
component's React state. Every `setX` is an immediate assignment, and every
functional updater is a pure function applied in call order. Each method is
proved against a pure function of the old state. The properties the component
promises are proved as lemmas about those functions.

The handlers are modelled as written, and every departure is listed under
"## Left out". These components implement no job orchestrator: there is no
concurrency ceiling, retry policy, backoff or timeout, and no success rate over
finished items. The configuration form only records `maxRetries`,
`retryDelay`, `maxConcurrentRequests` and `crawlTimeout`, and the scraper
forwards them unread, so the model has none of these either. The
scraper's success rate is modelled as the code computes it: from the status
list as it was before the run. The processor's progress is also modelled as
the code computes it: from the processed count captured when Start was clicked.

External inputs are parameters. `fetch`, the stream reader and
`response.json()` become a `Transport` or `Reply` value, or a function from
index and URL to a reply. `JSON.parse` becomes a partial function
`string -> Option<Record>`. `Math.random` becomes a `success` argument,
`Number(...)` a `toNumber` function, and `Date.now()` differences an
`elapsedMs` argument. Pressing Stop while a scrape is in flight becomes the
index `stopAt` of the request that the abort reaches.

Pressing Stop during an analysis is modelled the same way, through the
`Transport` the run reads. An abort that reaches the `fetch` makes the
transport `Rejected(e)`. An abort that reaches the reader makes it a `Reply`
whose `ending` is `Some(e)`. In both cases `e.name` is `"AbortError"`. The
records read before the abort are kept, and the error counter is left alone
(`StopDuringAnalysis`). Every handler runs to completion before the next one.
In the analysis and the scraper, a start ends with `controller == null`, so
the branch of their stop handlers that aborts a controller is reached only in
the middle of a run. The atomic model represents that case through the
`Transport` or through `stopAt`, and the class's stop methods still model both
branches. The processor's start creates a controller and never clears it, so
its Stop aborts that controller between handlers, as
`UrlListProcessor.HandleStopProcessing` models; no job observes the abort.

## Model

| member | source | states |
|---|---|---|
| StreamAnalysis.ResetStatsKeys | components/llm-processing.tsx:82-87 | the stats a start writes hold exactly `totalTime`, `processedChunks`, `errors` and `successRate`, all zero, and no `processedFiles` key, which is the key the panel reads |
| StreamAnalysis.Frame | components/llm-processing.tsx:115-117 | framing round trip: the emitted lines, each followed by a line feed, and then the new buffer give back the old buffer plus the chunk; no emitted line and not the new buffer contains a line feed |
| StreamAnalysis.FramingStep | components/llm-processing.tsx:111-117 | after reading chunk `i`, the lines emitted so far, each terminated, followed by the buffer equal everything read so far |
| StreamAnalysis.ApplyRecord | components/llm-processing.tsx:123-141 | a `step` or `file` record appends its value at the end; a `progress`, `final` or `stats` record replaces its one field; every other field, and the whole panel for an unknown type, is kept |
| StreamAnalysis.Dispatch | components/llm-processing.tsx:119-142 | dispatch only appends to the steps and files it starts from, and a batch of blank lines changes nothing and succeeds |
| StreamAnalysis.DispatchAppend | components/llm-processing.tsx:119-142 | dispatching two batches of lines one after the other is the same as dispatching them joined, and a batch that failed dispatches nothing more; so chunk boundaries do not matter |
| StreamAnalysis.BlankLinesInert | components/llm-processing.tsx:120 | removing the blank and whitespace-only lines changes neither the panel nor whether dispatch succeeds |
| StreamAnalysis.DispatchIsFold | components/llm-processing.tsx:119-142 | the panel after dispatch is the fold of the records parsed before the first line that fails to parse |
| StreamAnalysis.FoldAppendsInOrder | components/llm-processing.tsx:125-136 | `step` values and `file` entries are appended to the panel in arrival order |
| StreamAnalysis.DispatchAppendsInOrder | components/llm-processing.tsx:125-136 | the same in-order append for the lines of a dispatch |
| StreamAnalysis.FoldReplacesWithLast | components/llm-processing.tsx:123-141 | progress, final analysis and stats are each replaced by the value of the last record of that type, or kept when there is none |
| StreamAnalysis.LastStatsWithoutStatsRecord | components/llm-processing.tsx:139-140 | without a `stats` record the stats keep their previous value |
| StreamAnalysis.UnknownRecordsInert | components/llm-processing.tsx:123-141 | records of an unknown type change nothing |
| StreamAnalysis.CountError | components/llm-processing.tsx:162 | the error updater adds one to an integer `errors`, sets `errors` to NaN when it is missing or not a number, and leaves every other key as it was |
| StreamAnalysis.Caught | components/llm-processing.tsx:149-163 | a non-abort error counts exactly one error; an abort or a normal end leaves the stats unchanged |
| StreamAnalysis.TrailingTextNeverDispatched | components/llm-processing.tsx:111-117 | text after the last line feed of the stream is never dispatched, so a final record without a line feed is dropped |
| StreamAnalysis.ParseFailureStops | components/llm-processing.tsx:119-121 | the first complete non-blank line that fails to parse ends the run with a parse error; only the lines before it have been applied |
| StreamAnalysis.ProcessedFilesUnsetAfterRun | components/llm-processing.tsx:82-87 | when no `stats` record arrives, the stats after any run lack the `processedFiles` key |
| StreamAnalysis.StopsInChunk | components/llm-processing.tsx:111-121 | a parse failure inside chunk `i` gives the same result as the spec over the whole stream, whatever the later chunks hold |
| StreamAnalysis.Analysis | components/llm-processing.tsx:92-143 | a rejected fetch throws its own error, a non-OK status the HTTP error and an unreadable body the not-readable error, each with the reset panel; the run ends without an error only for an OK, readable reply whose reader ended normally |
| StreamAnalysis.StopDuringAnalysis | components/llm-processing.tsx:149-180 | a Stop that aborts the fetch leaves the reset panel and no counted error; a Stop that aborts the reader, when every complete line read before it parses, keeps the fold of those records, and the stats are those of the last `stats` record or the reset ones |
| StreamAnalysis.Streamed | components/llm-processing.tsx:108-143 | reading a readable reply ends as the reader ends or with a parse error; a stream whose complete lines are all blank leaves the reset panel and ends as the reader ends |
| StreamAnalysis.EndOfStream | components/llm-processing.tsx:111-113 | when every complete line dispatched, the run ends as the reader ends |
| StreamAnalysis.LlmProcessing.constructor | components/llm-processing.tsx:13-64 | the initial state: no key, no file, not processing, the placeholder steps, files and stats |
| StreamAnalysis.LlmProcessing.SetApiKey | components/llm-processing.tsx:191 | the key field holds the typed text |
| StreamAnalysis.LlmProcessing.HandleFileChange | components/llm-processing.tsx:68-72 | the first chosen file becomes the input; an empty choice keeps the old one |
| StreamAnalysis.LlmProcessing.HandleStartAnalysis | components/llm-processing.tsx:74-168 | a no-op while processing or without a file or key; otherwise the panel equals the spec of the whole run with its error counted, and processing and the controller are cleared |
| StreamAnalysis.LlmProcessing.Reset | components/llm-processing.tsx:77-89 | the panel is reset and processing starts with a fresh controller |
| StreamAnalysis.LlmProcessing.Fetch | components/llm-processing.tsx:97-106 | a rejected fetch, a non-OK status or an unreadable body throws before any line is read; otherwise the stream is read |
| StreamAnalysis.LlmProcessing.ReadStream | components/llm-processing.tsx:108-143 | the read loop leaves the panel the spec assigns to the complete lines of the concatenated chunks |
| StreamAnalysis.LlmProcessing.DispatchLines | components/llm-processing.tsx:119-142 | the line loop leaves the panel and the success flag of the dispatch spec |
| StreamAnalysis.LlmProcessing.Apply | components/llm-processing.tsx:123-141 | one record is applied by its type |
| StreamAnalysis.LlmProcessing.HandleStopAnalysis | components/llm-processing.tsx:170-180 | with a controller: it is aborted and processing stops; without one nothing changes; the panel is untouched |
| Scraping.Classify | components/url-list-scraper.tsx:90-99 | a request yields a result exactly when it was answered with an OK status and a parsable body, and that result is the body; a rejected fetch passes its error on, a non-OK status becomes the HTTP error, and an unparsable body passes the parse error on |
| Scraping.PercentOf | components/url-list-scraper.tsx:147-148 | a progress of `k` out of `n` times `n` is `k * 100`; all of `n` is 100, none is 0 |
| Scraping.Sanitize | components/url-list-scraper.tsx:117 | a file stem has one character per UTF-16 code unit of the URL, each an ASCII letter, digit or underscore |
| Scraping.SanitizeAt | components/url-list-scraper.tsx:117 | for a URL with no character outside the Basic Multilingual Plane, the stem keeps each ASCII letter or digit in its place and puts `_` for every other character |
| Scraping.SanitizeKeepsAlnum | components/url-list-scraper.tsx:117 | a URL of ASCII letters and digits is its own stem |
| Scraping.SanitizeIdempotent | components/url-list-scraper.tsx:117 | sanitising a stem again changes nothing |
| Scraping.SanitizeUnderscores | components/url-list-scraper.tsx:117 | text of letters, digits and underscores is unchanged by sanitising |
| Scraping.ScrapedFiles | components/url-list-scraper.tsx:114-128 | a success adds two files with different names: first `<stem>.json`, of JSON type, with the rendered raw data at the reply's JSON path, then `<stem>.md`, of Markdown type, with the Markdown text at the reply's Markdown path |
| Scraping.PatchFor | components/url-list-scraper.tsx:101-145 | every outcome writes a message and a final status: a success writes "Successfully scraped" and the reply's two paths, an abort writes "Scraping aborted", and any other error writes its own message, with no paths for either failure |
| Scraping.Counted | components/url-list-scraper.tsx:130-148 | a success adds two processed files, a failure other than an abort adds one error, and the elapsed time and success rate are kept |
| Scraping.Step | components/url-list-scraper.tsx:84-148 | one iteration appends one item for its URL, keeps the earlier files and appends the success's JSON and Markdown files, counts two processed files per success and one error per non-abort failure, and sets `processedUrls` to `i+1` and progress to `i+1` of `n` |
| Scraping.Run | components/url-list-scraper.tsx:83-149 | after `k` iterations, `processedUrls` is `k`, progress is `k` of the list length, and time and success rate are still zero |
| Scraping.ItemsInOrder | components/url-list-scraper.tsx:83-85 | after `k` iterations there are `k` status items, and item `j` belongs to the `j`-th URL |
| Scraping.ItemsCount | components/url-list-scraper.tsx:85 | each iteration appends exactly one status item |
| Scraping.ItemAtStep | components/url-list-scraper.tsx:85-112 | an iteration patches an existing item or its own pending item exactly when its URL matches |
| Scraping.ItemUrl | components/url-list-scraper.tsx:85 | patching never changes an item's URL |
| Scraping.FullRunComplete | components/url-list-scraper.tsx:147-148 | after the whole list, `processedUrls` and the number of status items equal the list length and progress is 100 |
| Scraping.FilesPerSuccess | components/url-list-scraper.tsx:114-128 | the run has two files for every success and none for a failure |
| Scraping.RunCounts | components/url-list-scraper.tsx:130-148 | `processedFiles` is twice the successes and `errors` the non-abort failures |
| Scraping.LatestWins | components/url-list-scraper.tsx:101-145 | an item's status and message are those of the latest iteration for its URL, so a repeated URL rewrites earlier items |
| Scraping.AbortsChangeNothing | components/url-list-scraper.tsx:134-145 | iterations ending in an abort add no file and change no counter |
| Scraping.StopFreezesCounters | components/url-list-scraper.tsx:134-145 | after Stop, the files and counters stay as they were when the abort reached the loop |
| Scraping.StopAbortsRest | components/url-list-scraper.tsx:134-145 | after Stop, every later item is an error with "Scraping aborted" and the loop still walks the whole list |
| Scraping.SameOutcomesSameRun | components/url-list-scraper.tsx:83-149 | runs whose first `k` requests end alike agree on their first `k` iterations |
| Scraping.StopKeepsEarlierIterations | components/url-list-scraper.tsx:172-182 | a Stop does not change the iterations before it |
| Scraping.StaleSuccessRate | components/url-list-scraper.tsx:153-154 | the success rate counts successes in the status list from before the run, so a first run reports 0 |
| Scraping.Finished | components/url-list-scraper.tsx:150-160 | the `finally` keeps progress, items, files and counters, stamps the elapsed seconds and sets the success rate from the status list before the run |
| Scraping.UrlListScraper.constructor | components/url-list-scraper.tsx:22-50 | the initial state: empty text, not processing, zero counters |
| Scraping.UrlListScraper.SetUrls | components/url-list-scraper.tsx:192 | the text area holds the typed text |
| Scraping.UrlListScraper.HandleStartScraping | components/url-list-scraper.tsx:54-170 | a no-op while processing or for a list with no non-blank line; otherwise the state equals the spec of the whole run with the stale success rate, and processing and the controller are cleared |
| Scraping.UrlListScraper.Begin | components/url-list-scraper.tsx:67-79 | the state is reset and processing starts with a fresh controller |
| Scraping.UrlListScraper.Finish | components/url-list-scraper.tsx:150-163 | the elapsed time and stale success rate are stamped and processing and the controller are cleared |
| Scraping.UrlListScraper.ScrapeAll | components/url-list-scraper.tsx:83-149 | the loop leaves the state the run spec assigns to the trimmed list |
| Scraping.UrlListScraper.ScrapeNext | components/url-list-scraper.tsx:84-149 | one loop pass advances the state from the run after `i` iterations to the run after `i+1` |
| Scraping.UrlListScraper.ScrapeOne | components/url-list-scraper.tsx:85-148 | one iteration with a given reply is the step spec for its outcome |
| Scraping.UrlListScraper.HandleStopScraping | components/url-list-scraper.tsx:172-182 | with a controller: it is aborted and processing stops; without one nothing changes |
| Processing.RoundPercent | components/url-list-processor.tsx:135 | the progress is the nearest integer to `processed / total * 100` in exact arithmetic, halves rounded up |
| Processing.RoundPercentNearest | components/url-list-processor.tsx:135 | the rounded progress lies in 0..100 when `processed <= total`, and is 0 for none and 100 for all |
| Processing.EscapeChar | components/url-list-processor.tsx:115 | an escaped character is non-empty printable text |
| Processing.EscapePrintable | components/url-list-processor.tsx:115 | an escaped string has no control characters |
| Processing.EscapePlain | components/url-list-processor.tsx:115 | a string of plain characters is its own escape |
| Processing.UrlJson | components/url-list-processor.tsx:123 | the file content is an object text that opens with the key `url` and closes the string and the object |
| Processing.UrlJsonPrintable | components/url-list-processor.tsx:123 | the file content is printable text for every URL |
| Processing.UrlJsonPlain | components/url-list-processor.tsx:123 | for a plain URL the content is `{"url":"<url>"}` |
| Processing.JobFile | components/url-list-processor.tsx:118-125 | the file a successful job adds is the JSON file `<url>.json` at `output/<url>.json`, and its content is the URL's JSON text |
| Processing.JobPatch | components/url-list-processor.tsx:113-132 | a job's patch is success exactly for a successful job; success carries the JSON text as the item's files and no message, failure carries "Failed to process" and no files |
| Processing.Start | components/url-list-processor.tsx:83-148 | a blank text leaves the board unchanged; a non-blank text schedules one job per non-blank line |
| Processing.StartListsEveryLine | components/url-list-processor.tsx:84-147 | a start resets the counters and files, keeps the stats, lists every non-blank untrimmed line in order as pending, and schedules one job per line with the stale count |
| Processing.Complete | components/url-list-processor.tsx:105-135 | a finished job leaves the waiting jobs less exactly itself, adds one processed URL, keeps the number of items, the stats, the text and the processing flag |
| Processing.Stop | components/url-list-processor.tsx:150-158 | Stop clears the processing flag and changes nothing else |
| Processing.CompleteCounts | components/url-list-processor.tsx:112-134 | a finished job adds one to `processedUrls`, leaves the waiting list, keeps the items' URLs and the stats, and appends one file exactly on success |
| Processing.CompleteSettles | components/url-list-processor.tsx:112-133 | items with the job's URL become success with the JSON text, or error with "Failed to process"; all other items are unchanged |
| Processing.StaleProgress | components/url-list-processor.tsx:135 | progress comes from the count captured at start, so a first run's jobs all report 0 |
| Processing.ProcessingFlag | components/url-list-processor.tsx:150-158 | only Start sets processing and only Stop clears it; a job leaves it as it is, and Stop cancels no job |
| Processing.RestartOvercounts | components/url-list-processor.tsx:83-134 | Start, Stop and Start again on a one-line list schedules two jobs, and both finishing count two processed URLs |
| Processing.UrlListProcessor.constructor | components/url-list-processor.tsx:20-79 | the initial state: empty text, zero counters, the demo files and stats |
| Processing.UrlListProcessor.SetUrls | components/url-list-processor.tsx:168 | the text area holds the typed text |
| Processing.UrlListProcessor.HandleStartProcessing | components/url-list-processor.tsx:83-148 | the state after the handler is the start spec of the old state; a blank text leaves the controller alone |
| Processing.UrlListProcessor.Begin | components/url-list-processor.tsx:93-98 | processing starts from zero with a fresh controller |
| Processing.UrlListProcessor.ProcessAll | components/url-list-processor.tsx:145-147 | each listed line gets its pending item and its job, in order |
| Processing.UrlListProcessor.ProcessUrl | components/url-list-processor.tsx:102-103 | one pending item and one job are appended |
| Processing.UrlListProcessor.FinishJob | components/url-list-processor.tsx:105-135 | a job's completion is the complete spec of the old state |
| Processing.UrlListProcessor.HandleStopProcessing | components/url-list-processor.tsx:150-158 | the stop spec: processing is cleared and the controller, if any, aborted |
| Results.Display | components/results-display.tsx:3-7 | nothing is rendered exactly when the result list is empty |
| Results.Filter | components/results-display.tsx:6-7 | a filtered list is no longer than its input and holds only names that satisfy the predicate |
| Results.FilterMembers | components/results-display.tsx:6-7 | a filtered list holds exactly the names that satisfy the predicate and is no longer than its input |
| Results.FilterAppend | components/results-display.tsx:6-7 | filtering keeps the original order |
| Results.FilterIdempotent | components/results-display.tsx:6-7 | filtering a filtered list again returns it unchanged |
| Results.SuffixesExclusive | components/results-display.tsx:6-7 | no name ends in both ".json" and ".md" |
| Results.ExclusiveFiltersFit | components/results-display.tsx:6-7 | the two lists together are no longer than the input |
| Results.DisplayPartition | components/results-display.tsx:4-7 | for a non-empty input, the JSON list holds exactly the ".json" names and the Markdown list exactly the ".md" names; they are disjoint, other names appear in neither, and re-filtering either list returns it |
| Config.NumericFieldsAreNumberTyped | components/config-settings.tsx:5-25 | the numeric field list is exactly the number-typed fields of the settings interface |
| Config.HandleChange | components/config-settings.tsx:23-30 | only the named field changes; a numeric field receives the number of the text, any other the raw text, with no range check |
| Config.ChangeIdempotent | components/config-settings.tsx:26-29 | applying the same change twice is the same as applying it once |
| Config.ChangeKeepsShape | components/config-settings.tsx:5-30 | a well-typed config stays well-typed exactly when the event names a field of the interface |
| Common.MarkUrl | components/url-list-scraper.tsx:101-112 | the keyed update keeps the number of items |
| Common.MarkUrlAt | components/url-list-scraper.tsx:101-112 | the keyed update patches every item with the URL and leaves every other item as it was |
| Text.Trim | components/url-list-scraper.tsx:84 | the trimmed text is empty exactly for whitespace-only text and otherwise starts and ends with a non-whitespace character |
| Text.TrimIsSlice | components/url-list-scraper.tsx:84 | the trimmed text is the slice of the text that starts after its leading whitespace, and only whitespace stands before and after it |
| Text.BlankIffTrimEmpty | components/url-list-processor.tsx:84 | a text is blank exactly when trimming it leaves nothing |
| Text.Split | components/llm-processing.tsx:116 | splitting at line feeds gives one more piece than there are line feeds, none of them containing one |
| Text.JoinSplit | components/llm-processing.tsx:116 | joining the pieces of a split with line feeds gives back the text |
| Text.SplitJoin | components/llm-processing.tsx:116 | splitting the join of line-feed-free lines gives back the lines |
| Text.Decompose | components/llm-processing.tsx:115-117 | every text is its complete lines, each terminated, followed by a remainder without a line feed |
| Text.Unique | components/llm-processing.tsx:115-117 | that decomposition is unique |
| Text.AfterLines | components/llm-processing.tsx:115-117 | complete lines already read stay in front of those of the text that follows |
| Text.NonBlank | components/url-list-scraper.tsx:57 | the kept lines are no more than the input lines, and none is blank |
| Text.UrlList | components/url-list-processor.tsx:100 | the URL list of a text has at most one entry per line of the text, and none is blank |
| Text.NonBlankMembers | components/url-list-scraper.tsx:57 | the URL list holds exactly the non-blank lines of the input |
| Text.NonBlankAppend | components/url-list-scraper.tsx:57 | the URL list of joined texts is the joined URL lists, and a single line is listed exactly when it is not blank, so the list keeps the order and the multiplicity of the lines |
| Text.BlankTextHasNoUrls | components/url-list-processor.tsx:84-100 | a text is blank exactly when it has no non-blank line |
| Text.DecimalString | components/url-list-scraper.tsx:97 | a status in an error message is written in decimal digits without leading zeros, and the digits denote the status |

## Left out

- Rendering, toasts and the presentational components: they show state and change none.
- Timing: the rate-limit `setTimeout`, the simulated one-second delay and `Date.now()`. The elapsed time of a scrape is an argument.
- Floating point: the scraper's progress and success rate are kept as exact operand pairs (`Percent`), and float rounding of `(i+1)/n*100` is not modelled.
- React scheduling: each handler runs atomically, and state updates are applied in call order. Two interleavings are modelled: Stop during a scrape is the `stopAt` index, and the processor's jobs finish in any order through `FinishJob`.
- Overlapping scrapes. Stop clears `isProcessing` (components/url-list-scraper.tsx:175), which enables Start again (:198), while the stopped loop goes on waiting and walking its list (:87). A second Start installs a new controller (:79). The old loop's later fetches then carry the new, unaborted signal (:94) and write into the new run's items, files and counters. The old `finally` then sets the controller to null (:163). The new run's next fetch reads the signal of null, and the `TypeError` this throws is counted as an error. The model runs each Start to completion, so it does not capture this overlap.
- `TextDecoder`: chunks are given as already decoded strings, and `JSON.parse` is a partial function. A parse failure is a `SyntaxError` whose message is not modelled.
- The `fileType` cast in the analysis `file` record is taken as given.
- `JSON.stringify(result.rawData, null, 2)` in the scraper is given as rendered text, and `result.jsonPath` and `result.markdownPath` are given as strings. The reply body is not shape-checked.
- The processor's `catch` is unreachable because nothing in its `try` throws, so it is not modelled.
- Processing.EscapeChar: characters are Unicode scalar values, so the `\uXXXX` escape `JSON.stringify` gives a lone surrogate does not arise. Only printability and the identity on plain characters are stated, not the exact escape of every control character.
- Scraping.Sanitize: stated as one output character per UTF-16 code unit, letters, digits and underscores. The position-by-position mapping is stated only for text without characters outside the Basic Multilingual Plane (`SanitizeAt`); such a character becomes two underscores.
- Processing.RoundPercent: `Math.round(p / t * 100)` is computed in double precision, and the model rounds the exact quotient half up instead. The two differ by one where `p / t * 100` falls just below a half in binary; for 23 of 40 the double gives 57 and the model 58, and 29 or 57 of 200 differ the same way.
- Progress and stats values from the analysis stream are taken as integers (`progress: int`, and `Num` is an integer or NaN). The component stores whatever JSON value arrives (components/llm-processing.tsx:124 and 140).
- Config.HandleChange: `Number(value)` is the parameter `toNumber`, and its conversion rules are not modelled.
- Retries, backoff, timeouts and a concurrency ceiling do not exist in these components, so they are not modelled.
