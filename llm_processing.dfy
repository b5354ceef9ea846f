/** The LLM analysis panel: a start handler that posts the input file and
    folds the newline-delimited JSON records of the streamed reply into the
    panel state, and a stop handler that aborts the request. */
module StreamAnalysis {
  import opened Common
  import opened Text

  /** A JavaScript number as the stats panel holds it; `undefined + 1` is `NaN`. */
  datatype Num = Int(value: int) | NaN

  /** The stats object: the reset writes one set of keys, a `stats` record
      replaces the whole object with whatever keys it carries. */
  type Stats = map<string, Num>

  /** One parsed line of the stream, told apart by its `type` field. */
  datatype Record =
    | ProgressRecord(progress: int)
    | StepRecord(step: string)
    | FileRecord(file: FileEntry)
    | FinalRecord(analysis: string)
    | StatsRecord(stats: Stats)
    | OtherRecord(kind: string)

  /** The part of the component state that a run writes. */
  datatype Panel = Panel(progress: int, steps: seq<string>, finalAnalysis: string,
                         files: seq<FileEntry>, stats: Stats)

  /** What `fetch` and the body reader deliver: either `fetch` rejects, or a
      reply arrives with a status, a body that is readable or not, the decoded
      chunks in order, and how reading ended (`None`: the reader reported
      done; `Some(e)`: a read rejected with `e` after those chunks). */
  datatype Transport =
    | Rejected(error: Exception)
    | Reply(status: nat, readable: bool, chunks: seq<string>, ending: Option<Exception>)

  const NotReadable: Exception := Exception("Error", "Response body is not readable")

  /** What `JSON.parse` throws on a malformed line; its message is engine-specific. */
  const ParseError: Exception := Exception("SyntaxError", "")

  /** The stats written when a run starts. The reset writes the key
      `processedChunks`, while the stats panel reads `processedFiles`. */
  function ResetStats(): Stats
  {
    map["totalTime" := Int(0), "processedChunks" := Int(0), "errors" := Int(0), "successRate" := Int(0)]
  }

  /** The reset zeroes four keys, and `processedFiles` is not one of them. */
  lemma ResetStatsKeys()
    ensures "processedFiles" !in ResetStats() && "processedChunks" in ResetStats()
    ensures ResetStats().Keys == {"totalTime", "processedChunks", "errors", "successRate"}
    ensures forall k :: k in ResetStats() ==> ResetStats()[k] == Int(0)
  {
  }

  /** The panel right after a start: progress 0, no steps, no final analysis, no files. */
  function StartPanel(): Panel {
    Panel(0, [], "", [], ResetStats())
  }

  /** One record folded into the panel, by its type: a `step` or `file`
      record appends, the others replace their one field, and a record of
      any other type changes nothing. */
  function ApplyRecord(p: Panel, r: Record): (q: Panel)
    ensures q.progress == if r.ProgressRecord? then r.progress else p.progress
    ensures q.steps == p.steps + (if r.StepRecord? then [r.step] else [])
    ensures q.files == p.files + (if r.FileRecord? then [r.file] else [])
    ensures q.finalAnalysis == if r.FinalRecord? then r.analysis else p.finalAnalysis
    ensures q.stats == if r.StatsRecord? then r.stats else p.stats
  {
    match r
    case ProgressRecord(v) => p.(progress := v)
    case StepRecord(s) => p.(steps := p.steps + [s])
    case FileRecord(f) => p.(files := p.files + [f])
    case FinalRecord(a) => p.(finalAnalysis := a)
    case StatsRecord(s) => p.(stats := s)
    case OtherRecord(_) => p
  }

  /** The lines of one read dispatched in order: a blank line is skipped,
      a line that does not parse stops everything (`false`), the others are
      folded into the panel. */
  function Dispatch(p: Panel, lines: seq<string>, parse: string -> Option<Record>): (r: (Panel, bool))
    ensures |p.steps| <= |r.0.steps| && r.0.steps[..|p.steps|] == p.steps
    ensures |p.files| <= |r.0.files| && r.0.files[..|p.files|] == p.files
    ensures AllBlank(lines) ==> r == (p, true)
    decreases |lines|
  {
    if lines == [] then (p, true)
    else if IsBlank(lines[0]) then Dispatch(p, lines[1..], parse)
    else match parse(lines[0])
      case None => (p, false)
      case Some(r) => Dispatch(ApplyRecord(p, r), lines[1..], parse)
  }

  /** Dispatching more lines after an earlier dispatch: nothing happens once a line failed. */
  function Resume(prior: (Panel, bool), lines: seq<string>, parse: string -> Option<Record>): (Panel, bool) {
    if prior.1 then Dispatch(prior.0, lines, parse) else prior
  }

  /** Dispatching two runs of lines is dispatching the first and resuming with the second. */
  lemma {:induction false} DispatchAppend(p: Panel, xs: seq<string>, ys: seq<string>, parse: string -> Option<Record>)
    ensures Dispatch(p, xs + ys, parse) == Resume(Dispatch(p, xs, parse), ys, parse)
    decreases |xs|
  {
    if xs == [] {
      assert xs + ys == ys;
    } else {
      assert (xs + ys)[0] == xs[0] && (xs + ys)[1..] == xs[1..] + ys;
      if IsBlank(xs[0]) {
        DispatchAppend(p, xs[1..], ys, parse);
      } else if parse(xs[0]).Some? {
        DispatchAppend(ApplyRecord(p, parse(xs[0]).value), xs[1..], ys, parse);
      }
    }
  }

  /** Dispatching a single line. */
  lemma DispatchOne(p: Panel, line: string, parse: string -> Option<Record>)
    ensures Dispatch(p, [line], parse)
              == if IsBlank(line) then (p, true)
                 else if parse(line).None? then (p, false)
                 else (ApplyRecord(p, parse(line).value), true)
  {
    assert [line][1..] == [];
  }

  /** Blank and whitespace-only lines change nothing: dispatching only the
      non-blank lines gives the same panel and the same verdict. */
  lemma {:induction false} BlankLinesInert(p: Panel, lines: seq<string>, parse: string -> Option<Record>)
    ensures Dispatch(p, NonBlank(lines), parse) == Dispatch(p, lines, parse)
    decreases |lines|
  {
    if lines != [] {
      if IsBlank(lines[0]) {
        BlankLinesInert(p, lines[1..], parse);
      } else {
        var nb := NonBlank(lines);
        assert nb[0] == lines[0] && nb[1..] == NonBlank(lines[1..]);
        if parse(lines[0]).Some? {
          BlankLinesInert(ApplyRecord(p, parse(lines[0]).value), lines[1..], parse);
        }
      }
    }
  }

  /** The records dispatched from `lines`: those of the non-blank lines
      before the first line that fails to parse. */
  function Records(lines: seq<string>, parse: string -> Option<Record>): seq<Record>
    decreases |lines|
  {
    if lines == [] then []
    else if IsBlank(lines[0]) then Records(lines[1..], parse)
    else match parse(lines[0])
      case None => []
      case Some(r) => [r] + Records(lines[1..], parse)
  }

  /** The records applied one after another, in arrival order. */
  function Fold(p: Panel, rs: seq<Record>): Panel
    decreases |rs|
  {
    if rs == [] then p else Fold(ApplyRecord(p, rs[0]), rs[1..])
  }

  /** Dispatching lines folds exactly their dispatched records. */
  lemma {:induction false} DispatchIsFold(p: Panel, lines: seq<string>, parse: string -> Option<Record>)
    ensures Dispatch(p, lines, parse).0 == Fold(p, Records(lines, parse))
    decreases |lines|
  {
    if lines != [] {
      if IsBlank(lines[0]) {
        DispatchIsFold(p, lines[1..], parse);
      } else if parse(lines[0]).Some? {
        var r := parse(lines[0]).value;
        var rs := [r] + Records(lines[1..], parse);
        assert rs[0] == r && rs[1..] == Records(lines[1..], parse);
        DispatchIsFold(ApplyRecord(p, r), lines[1..], parse);
      }
    }
  }

  function StepsOf(rs: seq<Record>): seq<string> {
    if rs == [] then []
    else (if rs[0].StepRecord? then [rs[0].step] else []) + StepsOf(rs[1..])
  }

  function FilesOf(rs: seq<Record>): seq<FileEntry> {
    if rs == [] then []
    else (if rs[0].FileRecord? then [rs[0].file] else []) + FilesOf(rs[1..])
  }

  /** `step` and `file` records append at the end in arrival order: the
      steps and files grow by exactly the step texts and file entries of the
      records, in order. */
  lemma {:induction false} FoldAppendsInOrder(p: Panel, rs: seq<Record>)
    ensures Fold(p, rs).steps == p.steps + StepsOf(rs)
    ensures Fold(p, rs).files == p.files + FilesOf(rs)
    decreases |rs|
  {
    if rs != [] {
      FoldAppendsInOrder(ApplyRecord(p, rs[0]), rs[1..]);
    }
  }

  /** The records a run's lines append to the steps and files, in order of arrival. */
  lemma DispatchAppendsInOrder(p: Panel, lines: seq<string>, parse: string -> Option<Record>)
    ensures Dispatch(p, lines, parse).0.steps == p.steps + StepsOf(Records(lines, parse))
    ensures Dispatch(p, lines, parse).0.files == p.files + FilesOf(Records(lines, parse))
  {
    DispatchIsFold(p, lines, parse);
    FoldAppendsInOrder(p, Records(lines, parse));
  }

  /** `progress`, `final` and `stats` records replace their field: after a
      fold each holds the value of the last such record, or its old value. */
  lemma {:induction false} FoldReplacesWithLast(p: Panel, rs: seq<Record>)
    ensures Fold(p, rs).progress == LastProgress(rs, p.progress)
    ensures Fold(p, rs).finalAnalysis == LastFinal(rs, p.finalAnalysis)
    ensures Fold(p, rs).stats == LastStats(rs, p.stats)
    decreases |rs|
  {
    if rs != [] {
      FoldReplacesWithLast(ApplyRecord(p, rs[0]), rs[1..]);
    }
  }

  function LastProgress(rs: seq<Record>, otherwise: int): int {
    if rs == [] then otherwise
    else LastProgress(rs[1..], if rs[0].ProgressRecord? then rs[0].progress else otherwise)
  }

  function LastFinal(rs: seq<Record>, otherwise: string): string {
    if rs == [] then otherwise
    else LastFinal(rs[1..], if rs[0].FinalRecord? then rs[0].analysis else otherwise)
  }

  function LastStats(rs: seq<Record>, otherwise: Stats): Stats {
    if rs == [] then otherwise
    else LastStats(rs[1..], if rs[0].StatsRecord? then rs[0].stats else otherwise)
  }

  /** Without a `stats` record the stats are left as they were. */
  lemma {:induction false} LastStatsWithoutStatsRecord(rs: seq<Record>, otherwise: Stats)
    requires forall i :: 0 <= i < |rs| ==> !rs[i].StatsRecord?
    ensures LastStats(rs, otherwise) == otherwise
    decreases |rs|
  {
    if rs != [] {
      LastStatsWithoutStatsRecord(rs[1..], otherwise);
    }
  }

  /** Records of an unknown type change nothing. */
  lemma {:induction false} UnknownRecordsInert(p: Panel, rs: seq<Record>)
    requires forall i :: 0 <= i < |rs| ==> rs[i].OtherRecord?
    ensures Fold(p, rs) == p
    decreases |rs|
  {
    if rs != [] {
      UnknownRecordsInert(p, rs[1..]);
    }
  }

  /** One read folded into the buffer: the chunk is appended, the buffer is
      split at line feeds and its last piece kept as the new buffer. The emitted lines, each with its line
      feed, followed by the new buffer give back the old buffer plus the
      chunk, and no line feed is left in the buffer. */
  function Frame(buffer: string, chunk: string): (r: (seq<string>, string))
    ensures Terminated(r.0) + r.1 == buffer + chunk
    ensures NoNewlines(r.0) && '\n' !in r.1
  {
    var s := buffer + chunk;
    Decompose(s);
    (CompleteLines(s), Remainder(s))
  }

  /** The `try` block of a start: the panel it leaves and what it threw.
      The lines dispatched are the complete lines of everything read;
      text after the last line feed is never dispatched. */
  function Analysis(t: Transport, parse: string -> Option<Record>): (r: (Panel, Option<Exception>))
    ensures t.Rejected? ==> r == (StartPanel(), Some(t.error))
    ensures t.Reply? && !IsOkStatus(t.status) ==> r == (StartPanel(), Some(HttpError(t.status)))
    ensures t.Reply? && IsOkStatus(t.status) && !t.readable ==> r == (StartPanel(), Some(NotReadable))
    ensures r.1.None? ==> t.Reply? && IsOkStatus(t.status) && t.readable && t.ending.None?
  {
    match t
    case Rejected(e) => (StartPanel(), Some(e))
    case Reply(status, readable, chunks, ending) =>
      if !IsOkStatus(status) then (StartPanel(), Some(HttpError(status)))
      else if !readable then (StartPanel(), Some(NotReadable))
      else Streamed(chunks, ending, parse)
  }

  /** Reading a readable reply: a line that does not parse throws, otherwise
      reading ends as the reader ends. */
  function Streamed(chunks: seq<string>, ending: Option<Exception>, parse: string -> Option<Record>): (r: (Panel, Option<Exception>))
    ensures r.1 == ending || r.1 == Some(ParseError)
    ensures AllBlank(CompleteLines(Concat(chunks))) ==> r == (StartPanel(), ending)
  {
    var d := Dispatch(StartPanel(), CompleteLines(Concat(chunks)), parse);
    if !d.1 then (d.0, Some(ParseError)) else (d.0, ending)
  }

  /** The updater the `catch` applies to the stats: `errors` is set to its
      previous value plus one, which is NaN when that value is missing. */
  function CountError(s: Stats): (r: Stats)
    ensures r.Keys == s.Keys + {"errors"}
    ensures forall k :: k in s && k != "errors" ==> r[k] == s[k]
    ensures "errors" in s && s["errors"].Int? ==> r["errors"] == Int(s["errors"].value + 1)
    ensures !("errors" in s && s["errors"].Int?) ==> r["errors"] == NaN
  {
    s["errors" := if "errors" in s && s["errors"].Int? then Int(s["errors"].value + 1) else NaN]
  }

  /** The `catch` block: a non-abort error counts one error, an abort counts none. */
  function Caught(outcome: (Panel, Option<Exception>)): (p: Panel)
    ensures outcome.1.Some? && !IsAbort(outcome.1.value) ==> p == outcome.0.(stats := CountError(outcome.0.stats))
    ensures outcome.1.None? || IsAbort(outcome.1.value) ==> p == outcome.0
  {
    match outcome.1
    case Some(e) => if e.name == AbortErrorName then outcome.0 else outcome.0.(stats := CountError(outcome.0.stats))
    case None => outcome.0
  }

  /** An encoded stream, any way it is cut into chunks, dispatches exactly
      its records; a last record without its line feed is dropped. */
  lemma TrailingTextNeverDispatched(lines: seq<string>, tail: string, status: nat, chunks: seq<string>,
                                    ending: Option<Exception>, parse: string -> Option<Record>)
    requires NoNewlines(lines) && '\n' !in tail
    requires Concat(chunks) == Terminated(lines) + tail
    requires IsOkStatus(status)
    ensures Analysis(Reply(status, true, chunks, ending), parse).0 == Dispatch(StartPanel(), lines, parse).0
  {
    Unique(lines, tail);
  }

  /** A line that fails to parse abandons every later line and counts as one error. */
  lemma ParseFailureStops(status: nat, chunks: seq<string>, k: nat, ending: Option<Exception>,
                          parse: string -> Option<Record>)
    requires IsOkStatus(status)
    requires k < |CompleteLines(Concat(chunks))|
    requires !IsBlank(CompleteLines(Concat(chunks))[k]) && parse(CompleteLines(Concat(chunks))[k]).None?
    ensures Analysis(Reply(status, true, chunks, ending), parse)
              == (Dispatch(StartPanel(), CompleteLines(Concat(chunks))[..k], parse).0, Some(ParseError))
  {
    var lines := CompleteLines(Concat(chunks));
    assert lines == lines[..k] + ([lines[k]] + lines[k + 1..]);
    DispatchAppend(StartPanel(), lines[..k], [lines[k]] + lines[k + 1..], parse);
  }

  /** Stop pressed during a run aborts the request: `fetch` rejects with the
      abort error, or a later read does. The records of the lines read before
      the abort stay applied and no error is counted; the stats are the reset
      ones unless a `stats` record arrived. */
  lemma StopDuringAnalysis(t: Transport, parse: string -> Option<Record>)
    requires t.Rejected? ==> IsAbort(t.error)
    requires t.Reply? ==> IsOkStatus(t.status) && t.readable && t.ending.Some? && IsAbort(t.ending.value)
    ensures t.Rejected? ==> Caught(Analysis(t, parse)) == StartPanel()
    ensures t.Reply? && Dispatch(StartPanel(), CompleteLines(Concat(t.chunks)), parse).1 ==>
              var rs := Records(CompleteLines(Concat(t.chunks)), parse);
              && Caught(Analysis(t, parse)) == Fold(StartPanel(), rs)
              && Caught(Analysis(t, parse)).stats == LastStats(rs, ResetStats())
  {
    if t.Reply? {
      var lines := CompleteLines(Concat(t.chunks));
      DispatchIsFold(StartPanel(), lines, parse);
      FoldReplacesWithLast(StartPanel(), Records(lines, parse));
    }
  }

  /** After a start whose records hold no `stats` record, the stats object
      has no `processedFiles` key, which is the one the stats panel reads. */
  lemma ProcessedFilesUnsetAfterRun(t: Transport, parse: string -> Option<Record>)
    requires t.Reply? ==> forall i :: 0 <= i < |Records(CompleteLines(Concat(t.chunks)), parse)| ==>
                                      !Records(CompleteLines(Concat(t.chunks)), parse)[i].StatsRecord?
    ensures "processedFiles" !in Caught(Analysis(t, parse)).stats
  {
    if t.Reply? {
      var rs := Records(CompleteLines(Concat(t.chunks)), parse);
      DispatchIsFold(StartPanel(), CompleteLines(Concat(t.chunks)), parse);
      FoldReplacesWithLast(StartPanel(), rs);
      LastStatsWithoutStatsRecord(rs, ResetStats());
    }
    ResetStatsKeys();
  }

  const PlaceholderSteps: seq<string> := [
    "Step 1: Input Validation - Verify the file format and size.",
    "Step 2: Data Preprocessing - Clean and normalize the input data.",
    "Step 3: Feature Extraction - Identify key features for analysis.",
    "Step 4: Model Inference - Run the data through the LLM for insights.",
    "Step 5: Post-Processing - Format and validate the output.",
    "Step 6: Result Compilation - Generate final analysis report."
  ]

  const PlaceholderFiles: seq<FileEntry> := [
    FileEntry("analysis-summary.json", Json, "{\"key\":\"value\"}", "/processed_data/analysis-summary.json"),
    FileEntry("analysis-report.md", Markdown, "# Analysis Report", "/processed_data/analysis-report.md"),
    FileEntry("model-insights.json", Json, "{\"key\":\"value\"}", "/processed_data/model-insights.json"),
    FileEntry("feature-extraction.md", Markdown, "# Feature Extraction", "/processed_data/feature-extraction.md")
  ]

  /** The initial stats object, which does carry `processedFiles`. */
  const PlaceholderStats: Stats :=
    map["totalTime" := Int(31), "processedFiles" := Int(2), "errors" := Int(0), "successRate" := Int(26)]

  /** The LLM processing component: its state and its two handlers. */
  class LlmProcessing {
    var apiKey: string
    var inputFile: Option<string>
    var isProcessing: bool
    var progress: int
    var analysisSteps: seq<string>
    var finalAnalysis: string
    var files: seq<FileEntry>
    var stats: Stats
    var controller: AbortController?

    function View(): Panel
      reads this
    {
      Panel(progress, analysisSteps, finalAnalysis, files, stats)
    }

    /** The initial state: placeholder steps, files and stats, no key, no file. */
    constructor ()
      ensures apiKey == "" && inputFile.None? && !isProcessing && controller == null
      ensures progress == 0 && finalAnalysis == ""
      ensures analysisSteps == PlaceholderSteps && files == PlaceholderFiles && stats == PlaceholderStats
    {
      apiKey := "";
      inputFile := None;
      isProcessing := false;
      progress := 0;
      analysisSteps := PlaceholderSteps;
      finalAnalysis := "";
      files := PlaceholderFiles;
      stats := PlaceholderStats;
      controller := null;
    }

    /** `onChange` of the key input. */
    method SetApiKey(key: string)
      modifies this`apiKey
      ensures apiKey == key
    {
      apiKey := key;
    }

    /** `handleFileChange`: the first chosen file, if any, becomes the input file. */
    method HandleFileChange(chosen: seq<string>)
      modifies this`inputFile
      ensures inputFile == if chosen != [] then Some(chosen[0]) else old(inputFile)
    {
      if chosen != [] {
        inputFile := Some(chosen[0]);
      }
    }

    /** `handleStartAnalysis`: a no-op while a run is processing or when the file
        or the key is missing; otherwise it resets the panel, reads the reply
        chunk by chunk, dispatches every completed line, and on every exit
        clears `isProcessing` and the controller. */
    method HandleStartAnalysis(transport: Transport, parse: string -> Option<Record>)
      modifies this
      ensures old(isProcessing || inputFile.None? || apiKey == "") ==> unchanged(this)
      ensures !old(isProcessing || inputFile.None? || apiKey == "") ==>
                && View() == Caught(Analysis(transport, parse))
                && !isProcessing && controller == null
                && apiKey == old(apiKey) && inputFile == old(inputFile)
    {
      if isProcessing || inputFile.None? || apiKey == "" {
        return;
      }
      Reset();
      var failure := Fetch(transport, parse);
      if failure.Some? && failure.value.name != AbortErrorName {
        stats := CountError(stats);
      }
      isProcessing := false;
      controller := null;
    }

    /** The state a start writes before its request: processing, progress 0,
        no steps, no final analysis, no files, zeroed stats, a new controller. */
    method Reset()
      modifies this
      ensures View() == StartPanel() && isProcessing && controller != null && fresh(controller)
      ensures apiKey == old(apiKey) && inputFile == old(inputFile)
    {
      isProcessing := true;
      progress := 0;
      analysisSteps := [];
      finalAnalysis := "";
      files := [];
      stats := ResetStats();
      controller := new AbortController();
    }

    /** The request and the status checks of the `try` block, then the read loop. */
    method Fetch(transport: Transport, parse: string -> Option<Record>) returns (failure: Option<Exception>)
      requires View() == StartPanel()
      modifies this`progress, this`analysisSteps, this`finalAnalysis, this`files, this`stats
      ensures (View(), failure) == Analysis(transport, parse)
    {
      match transport {
        case Rejected(e) =>
          failure := Some(e);
        case Reply(status, readable, chunks, ending) =>
          if !IsOkStatus(status) {
            failure := Some(HttpError(status));
          } else if !readable {
            failure := Some(NotReadable);
          } else {
            failure := ReadStream(chunks, ending, parse);
          }
      }
    }

    /** The `while (true)` read loop: each chunk is appended to the buffer,
        the completed lines are dispatched and the incomplete tail stays in
        the buffer; when the reader is done the buffer is dropped. */
    method ReadStream(chunks: seq<string>, ending: Option<Exception>, parse: string -> Option<Record>)
      returns (failure: Option<Exception>)
      requires View() == StartPanel()
      modifies this`progress, this`analysisSteps, this`finalAnalysis, this`files, this`stats
      ensures (View(), failure) == Streamed(chunks, ending, parse)
    {
      var buffer := "";
      var i := 0;
      ghost var done: seq<string> := [];
      failure := None;
      while i < |chunks|
        invariant 0 <= i <= |chunks|
        invariant Terminated(done) + buffer == Concat(chunks[..i])
        invariant NoNewlines(done) && '\n' !in buffer
        invariant Dispatch(StartPanel(), done, parse) == (View(), true)
      {
        var framed := Frame(buffer, chunks[i]);
        var lines := framed.0;
        FramingStep(chunks, i, done, buffer, lines, framed.1);
        buffer := framed.1;
        DispatchAppend(StartPanel(), done, lines, parse);
        var ok := DispatchLines(lines, parse);
        if !ok {
          StopsInChunk(chunks, i, done + lines, buffer, View(), ending, parse);
          failure := Some(ParseError);
          return;
        }
        done := done + lines;
        i := i + 1;
      }
      assert chunks[..i] == chunks;
      EndOfStream(chunks, done, buffer, View(), ending, parse);
      failure := ending;
    }

    /** The `for` loop over one read's lines: blank lines are skipped, a line
        that does not parse stops the loop, the others update the state. */
    method DispatchLines(lines: seq<string>, parse: string -> Option<Record>) returns (ok: bool)
      modifies this`progress, this`analysisSteps, this`finalAnalysis, this`files, this`stats
      ensures (View(), ok) == Dispatch(old(View()), lines, parse)
    {
      var j := 0;
      while j < |lines|
        invariant 0 <= j <= |lines|
        invariant Dispatch(old(View()), lines[..j], parse) == (View(), true)
      {
        var line := lines[j];
        assert lines[..j + 1] == lines[..j] + [line];
        DispatchAppend(old(View()), lines[..j], [line], parse);
        DispatchOne(View(), line, parse);
        if !IsBlank(line) {
          match parse(line) {
            case None =>
              assert lines == lines[..j + 1] + lines[j + 1..];
              DispatchAppend(old(View()), lines[..j + 1], lines[j + 1..], parse);
              return false;
            case Some(r) =>
              Apply(r);
          }
        }
        j := j + 1;
      }
      assert lines[..j] == lines;
      return true;
    }

    /** The `if … else if` chain on `data.type`: one setter per known type. */
    method Apply(r: Record)
      modifies this`progress, this`analysisSteps, this`finalAnalysis, this`files, this`stats
      ensures View() == ApplyRecord(old(View()), r)
    {
      match r {
        case ProgressRecord(v) => progress := v;
        case StepRecord(x) => analysisSteps := analysisSteps + [x];
        case FileRecord(f) => files := files + [f];
        case FinalRecord(a) => finalAnalysis := a;
        case StatsRecord(x) => stats := x;
        case OtherRecord(_) =>
      }
    }

    /** `handleStopAnalysis`: acts only when a controller exists, aborting it
        and clearing `isProcessing`. */
    method HandleStopAnalysis()
      modifies this, controller
      ensures old(controller) != null ==> old(controller).aborted && !isProcessing
      ensures old(controller) == null ==> unchanged(this)
      ensures controller == old(controller)
      ensures View() == old(View()) && apiKey == old(apiKey) && inputFile == old(inputFile)
    {
      if controller != null {
        controller.Abort();
        isProcessing := false;
      }
    }
  }

  /** One read keeps the framing invariant: everything read so far is the
      dispatched lines, each with its line feed, followed by the buffer. */
  lemma FramingStep(chunks: seq<string>, i: nat, done: seq<string>, previous: string,
                    lines: seq<string>, buffer: string)
    requires i < |chunks|
    requires Terminated(done) + previous == Concat(chunks[..i]) && NoNewlines(done)
    requires Terminated(lines) + buffer == previous + chunks[i] && NoNewlines(lines)
    ensures Terminated(done + lines) + buffer == Concat(chunks[..i + 1])
    ensures NoNewlines(done + lines)
  {
    TerminatedAppend(done, lines);
    NoNewlinesAppend(done, lines);
    assert chunks[..i + 1][..i] == chunks[..i];
    calc {
      Terminated(done + lines) + buffer;
      Terminated(done) + (Terminated(lines) + buffer);
      Terminated(done) + (previous + chunks[i]);
      (Terminated(done) + previous) + chunks[i];
      Concat(chunks[..i + 1]);
    }
  }

  /** A line of the `i`-th read that fails to parse ends the whole stream
      with the panel as it was before that line. */
  lemma StopsInChunk(chunks: seq<string>, i: nat, read: seq<string>, buffer: string, v: Panel,
                     ending: Option<Exception>, parse: string -> Option<Record>)
    requires i < |chunks|
    requires Concat(chunks[..i + 1]) == Terminated(read) + buffer && NoNewlines(read)
    requires Dispatch(StartPanel(), read, parse) == (v, false)
    ensures Streamed(chunks, ending, parse) == (v, Some(ParseError))
  {
    var rest := buffer + Concat(chunks[i + 1..]);
    LinesAfterChunk(chunks, i, read, buffer);
    DispatchAppend(StartPanel(), read, CompleteLines(rest), parse);
  }

  /** The complete lines of the whole stream are the lines read up to chunk
      `i` followed by the complete lines of what is still to come. */
  lemma LinesAfterChunk(chunks: seq<string>, i: nat, read: seq<string>, buffer: string)
    requires i < |chunks|
    requires Concat(chunks[..i + 1]) == Terminated(read) + buffer && NoNewlines(read)
    ensures CompleteLines(Concat(chunks)) == read + CompleteLines(buffer + Concat(chunks[i + 1..]))
  {
    ConcatSplit(chunks, i + 1);
    LinesAfterPrefix(Concat(chunks), read, buffer, Concat(chunks[i + 1..]));
  }

  /** A text made of terminated lines, a partial line and more text yields
      those lines first. */
  lemma LinesAfterPrefix(whole: string, read: seq<string>, buffer: string, later: string)
    requires NoNewlines(read) && whole == (Terminated(read) + buffer) + later
    ensures CompleteLines(whole) == read + CompleteLines(buffer + later)
  {
    assert whole == Terminated(read) + (buffer + later);
    AfterLines(read, buffer + later);
  }

  /** When the reader is done, the dispatched lines are all the complete
      lines, and the buffer left over is dropped. */
  lemma EndOfStream(chunks: seq<string>, done: seq<string>, buffer: string, v: Panel,
                    ending: Option<Exception>, parse: string -> Option<Record>)
    requires Terminated(done) + buffer == Concat(chunks) && NoNewlines(done) && '\n' !in buffer
    requires Dispatch(StartPanel(), done, parse) == (v, true)
    ensures Streamed(chunks, ending, parse) == (v, ending)
  {
    Unique(done, buffer);
  }
}
