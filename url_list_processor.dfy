/** The URL list processor: a start lists every non-blank line as pending and
    schedules one simulated job per line; each job later settles its line's
    status items, adds a file on success and counts itself. Nothing the
    controller does reaches the jobs. */
module Processing {
  import opened Common
  import opened Text

  type Positive = n: nat | n > 0 witness 1

  /** `Math.round(processed / total * 100)`: the percentage rounded half up,
      as the integer quotient `(200 * processed + total) / (2 * total)`. */
  function RoundPercent(processed: nat, total: Positive): (r: nat)
    ensures 2 * total * r <= 200 * processed + total < 2 * total * (r + 1)
  {
    var q := (200 * processed + total) / (2 * total);
    assert 200 * processed + total == 2 * total * q + (200 * processed + total) % (2 * total);
    q
  }

  /** Multiplying by a natural number keeps the order. */
  lemma MulMono(t: nat, a: int, b: int)
    ensures a <= b ==> t * a <= t * b
  {
    if a <= b {
      assert t * b - t * a == t * (b - a);
    }
  }

  /** The rounded percentage is the integer nearest to `processed / total * 100`
      (a half rounds up): at most 100 while `processed <= total`, 0 for
      nothing processed and 100 for everything. */
  lemma RoundPercentNearest(processed: nat, total: Positive)
    ensures processed <= total ==> RoundPercent(processed, total) <= 100
    ensures processed == 0 ==> RoundPercent(processed, total) == 0
    ensures processed == total ==> RoundPercent(processed, total) == 100
  {
    var r := RoundPercent(processed, total);
    var t := 2 * total;
    if processed <= total {
      assert t * r < t * 101;
      MulMono(t, 101, r);
    }
    if processed == 0 {
      assert t * r < t * 1;
      MulMono(t, 1, r);
    }
    if processed == total {
      assert t * 100 < t * (r + 1);
      MulMono(t, r + 1, 100);
    }
  }

  /** The lower-case hexadecimal digit of `d`. */
  function HexDigit(d: nat): char
    requires d < 16
  {
    if d < 10 then '0' + d as char else 'a' + (d - 10) as char
  }

  /** A text with no control character. */
  predicate Printable(s: string) {
    forall i :: 0 <= i < |s| ==> s[i] >= ' '
  }

  /** How `JSON.stringify` writes one character inside a string literal. */
  function EscapeChar(c: char): (r: string)
    ensures |r| >= 1 && Printable(r)
  {
    if c == '"' then "\\\""
    else if c == '\\' then "\\\\"
    else if c == '\U{8}' then "\\b"
    else if c == '\U{C}' then "\\f"
    else if c == '\n' then "\\n"
    else if c == '\r' then "\\r"
    else if c == '\t' then "\\t"
    else if c < ' ' then "\\u00" + [HexDigit(c as nat / 16), HexDigit(c as nat % 16)]
    else [c]
  }

  /** The body of a JSON string literal for `s`. */
  function Escape(s: string): (r: string)
    ensures |r| >= |s|
  {
    if s == [] then [] else Escape(s[..|s| - 1]) + EscapeChar(s[|s| - 1])
  }

  /** Escaping leaves no control character. */
  lemma {:induction false} EscapePrintable(s: string)
    ensures Printable(Escape(s))
  {
    if s != [] {
      EscapePrintable(s[..|s| - 1]);
      PrintableConcat(Escape(s[..|s| - 1]), EscapeChar(s[|s| - 1]));
    }
  }

  /** A character `JSON.stringify` copies as it is. */
  predicate Plain(c: char) {
    c != '"' && c != '\\' && c >= ' '
  }

  lemma EscapeCharPlain(c: char)
    requires Plain(c)
    ensures EscapeChar(c) == [c]
  {
  }

  /** A string of plain characters is its own escaped form. */
  lemma {:induction false} EscapePlain(s: string)
    requires forall i :: 0 <= i < |s| ==> Plain(s[i])
    ensures Escape(s) == s
  {
    if s != [] {
      var init, c := s[..|s| - 1], s[|s| - 1];
      assert forall i :: 0 <= i < |init| ==> init[i] == s[i];
      EscapePlain(init);
      EscapeCharPlain(c);
      InitLast(s);
    }
  }

  /** The JSON text of an object whose one key `url` holds the URL. */
  function UrlJson(url: string): (j: string)
    ensures |j| >= 10 && j[..8] == "{\"url\":\"" && j[|j| - 2..] == "\"}"
  {
    "{\"url\":\"" + Escape(url) + "\"}"
  }

  lemma PrintableConcat(a: string, b: string)
    requires Printable(a) && Printable(b)
    ensures Printable(a + b)
  {
    forall i | 0 <= i < |a + b| ensures (a + b)[i] >= ' ' {
      if i >= |a| {
        assert (a + b)[i] == b[i - |a|];
      }
    }
  }

  /** The record a job writes never holds a control character, so it stays
      on one line whatever the URL holds. */
  lemma UrlJsonPrintable(url: string)
    ensures Printable(UrlJson(url))
  {
    var head := "{\"url\":\"";
    assert Printable(head);
    assert Printable("\"}");
    EscapePrintable(url);
    PrintableConcat(head, Escape(url));
    PrintableConcat(head + Escape(url), "\"}");
  }

  /** The record a job writes names the URL verbatim when the URL holds only
      plain characters. */
  lemma UrlJsonPlain(url: string)
    requires forall i :: 0 <= i < |url| ==> Plain(url[i])
    ensures UrlJson(url) == "{\"url\":\"" + url + "\"}"
  {
    EscapePlain(url);
  }

  /** The file a successful job adds. */
  function JobFile(url: string): (f: FileEntry)
    ensures f.kind == Json && f.content == UrlJson(url)
    ensures EndsWith(f.name, ".json") && |url| <= |f.name| && f.name[..|url|] == url
    ensures EndsWith(f.path, f.name)
    ensures f.name == url + ".json" && f.path == "output/" + url + ".json"
  {
    FileEntry(url + ".json", Json, UrlJson(url), "output/" + url + ".json")
  }

  /** The status item a job appends before it waits. */
  function PendingItem(url: string): StatusItem {
    StatusItem(url, Pending, None, None)
  }

  function PendingItems(lines: seq<string>): (r: seq<StatusItem>)
    ensures |r| == |lines|
  {
    if lines == [] then [] else PendingItems(lines[..|lines| - 1]) + [PendingItem(lines[|lines| - 1])]
  }

  /** A job waiting on its timer: its URL, the length of its list, and the
      `processedUrls` its closure captured when Start was clicked. */
  datatype Job = Job(url: string, total: Positive, staleProcessed: nat)

  function Jobs(lines: seq<string>, total: Positive, stale: nat): (r: seq<Job>)
    ensures |r| == |lines|
  {
    if lines == [] then [] else Jobs(lines[..|lines| - 1], total, stale) + [Job(lines[|lines| - 1], total, stale)]
  }

  /** The four counters of the stats panel; this component never writes them. */
  datatype ProcessStats = ProcessStats(totalTime: int, processedFiles: int, errors: int, successRate: int)

  const DemoStats: ProcessStats := ProcessStats(45, 8, 2, 75)

  const DemoFiles: seq<FileEntry> := [
    FileEntry("assembly-manufacturing.json", Json, "{\"key\":\"value\"}", "/processed_data/assembly-manufacturing.json"),
    FileEntry("sheet-metal-processing.md", Markdown, "# Markdown Content", "/processed_data/sheet-metal-processing.md"),
    FileEntry("cnc-machining.json", Json, "{\"key\":\"value\"}", "/processed_data/cnc-machining.json"),
    FileEntry("die-casting.md", Markdown, "# Markdown Content", "/processed_data/die-casting.md"),
    FileEntry("materials-overview.json", Json, "{\"key\":\"value\"}", "/processed_data/materials-overview.json")
  ]

  /** The component's state together with the jobs still waiting on their timers. */
  datatype Board = Board(urls: string, isProcessing: bool, progress: nat, processedUrls: nat,
                         statusItems: seq<StatusItem>, files: seq<FileEntry>, stats: ProcessStats,
                         waiting: seq<Job>)

  /** `handleStartProcessing`: nothing for a blank text; otherwise processing
      starts from zero and every non-blank line, untrimmed, gets a pending
      item and a job. A run in progress is not checked for: its jobs stay
      scheduled. */
  function Start(b: Board): (r: Board)
    ensures !IsBlank(b.urls) ==> |r.waiting| == |b.waiting| + |UrlList(b.urls)|
    ensures IsBlank(b.urls) ==> r == b
  {
    if IsBlank(b.urls) then b
    else
      var lines := UrlList(b.urls);
      BlankTextHasNoUrls(b.urls);
      b.(isProcessing := true, progress := 0, processedUrls := 0,
         statusItems := PendingItems(lines), files := [],
         waiting := b.waiting + Jobs(lines, |lines|, b.processedUrls))
  }

  /** The fields a finished job spreads over its URL's items: on success the
      status and the JSON text as `files`, on failure the status and a message. */
  function JobPatch(url: string, success: bool): (p: Patch)
    ensures p.status == Success <==> success
    ensures p.status != Pending
    ensures success ==> p.files == Some(ItemFiles(Some(UrlJson(url)), None)) && p.message.None?
    ensures !success ==> p.message == Some("Failed to process") && p.files.None?
  {
    if success then Patch(Success, None, Some(ItemFiles(Some(UrlJson(url)), None)))
    else Patch(Error, Some("Failed to process"), None)
  }

  /** The `k`-th waiting job wakes up with the coin `success`: it settles the
      items with its URL, adds its file on success, counts one more processed
      URL and sets the progress from its captured count. */
  function Complete(b: Board, k: nat, success: bool): (r: Board)
    requires k < |b.waiting|
    ensures multiset(r.waiting) + multiset{b.waiting[k]} == multiset(b.waiting)
    ensures r.processedUrls == b.processedUrls + 1 && |r.statusItems| == |b.statusItems|
    ensures r.stats == b.stats && r.urls == b.urls && r.isProcessing == b.isProcessing
  {
    assert b.waiting == b.waiting[..k] + [b.waiting[k]] + b.waiting[k + 1..];
    var job := b.waiting[k];
    b.(statusItems := MarkUrl(b.statusItems, job.url, JobPatch(job.url, success)),
       files := b.files + (if success then [JobFile(job.url)] else []),
       processedUrls := b.processedUrls + 1,
       progress := RoundPercent(job.staleProcessed, job.total),
       waiting := b.waiting[..k] + b.waiting[k + 1..])
  }

  /** `handleStopProcessing`: processing is marked stopped; no job is cancelled. */
  function Stop(b: Board): (r: Board)
    ensures !r.isProcessing
    ensures r.(isProcessing := b.isProcessing) == b
  {
    b.(isProcessing := false)
  }

  lemma {:induction false} PendingItemsAt(lines: seq<string>, j: nat)
    requires j < |lines|
    ensures PendingItems(lines)[j] == PendingItem(lines[j])
  {
    if j < |lines| - 1 {
      PendingItemsAt(lines[..|lines| - 1], j);
    }
  }

  lemma {:induction false} JobsAt(lines: seq<string>, total: Positive, stale: nat, j: nat)
    requires j < |lines|
    ensures Jobs(lines, total, stale)[j] == Job(lines[j], total, stale)
  {
    if j < |lines| - 1 {
      JobsAt(lines[..|lines| - 1], total, stale, j);
    }
  }

  /** A start on a non-blank text lists every non-blank line, in order and
      untrimmed, as a pending item with no message, schedules one job per
      line behind the jobs already waiting, empties the files and zeroes the
      counters; the stats are left as they were. */
  lemma StartListsEveryLine(b: Board)
    requires !IsBlank(b.urls)
    ensures var t := Start(b);
            var lines := UrlList(b.urls);
            && |lines| > 0
            && t.isProcessing && t.progress == 0 && t.processedUrls == 0 && t.files == []
            && t.stats == b.stats && t.urls == b.urls
            && |t.statusItems| == |lines|
            && (forall j :: 0 <= j < |lines| ==> t.statusItems[j] == StatusItem(lines[j], Pending, None, None))
            && |t.waiting| == |b.waiting| + |lines|
            && t.waiting[..|b.waiting|] == b.waiting
            && (forall j :: 0 <= j < |lines| ==> t.waiting[|b.waiting| + j] == Job(lines[j], |lines|, b.processedUrls))
  {
    var lines := UrlList(b.urls);
    BlankTextHasNoUrls(b.urls);
    var t := Start(b);
    forall j | 0 <= j < |lines|
      ensures t.statusItems[j] == StatusItem(lines[j], Pending, None, None)
      ensures t.waiting[|b.waiting| + j] == Job(lines[j], |lines|, b.processedUrls)
    {
      PendingItemsAt(lines, j);
      JobsAt(lines, |lines|, b.processedUrls, j);
    }
  }

  /** A finished job: one fewer job waits and one more URL is counted, so
      their sum is kept; the status list keeps its length and its URLs; one
      file is added exactly on success; the text, the stats and the
      processing flag are untouched. */
  lemma CompleteCounts(b: Board, k: nat, success: bool)
    requires k < |b.waiting|
    ensures var t := Complete(b, k, success);
            && t.processedUrls + |t.waiting| == b.processedUrls + |b.waiting|
            && |t.statusItems| == |b.statusItems|
            && (forall j :: 0 <= j < |t.statusItems| ==> t.statusItems[j].url == b.statusItems[j].url)
            && |t.files| == |b.files| + (if success then 1 else 0)
            && t.files[..|b.files|] == b.files
            && t.stats == b.stats && t.urls == b.urls && t.isProcessing == b.isProcessing
  {
    var job := b.waiting[k];
    var t := Complete(b, k, success);
    forall j | 0 <= j < |t.statusItems| ensures t.statusItems[j].url == b.statusItems[j].url {
      MarkUrlAt(b.statusItems, job.url, JobPatch(job.url, success), j);
    }
  }

  /** A finished job settles every item with its URL: `success` with the
      JSON text as its files and its message kept, or `error` with the
      message "Failed to process"; items of other URLs are untouched. */
  lemma CompleteSettles(b: Board, k: nat, success: bool, j: nat)
    requires k < |b.waiting| && j < |b.statusItems|
    ensures var item := Complete(b, k, success).statusItems[j];
            var was := b.statusItems[j];
            var url := b.waiting[k].url;
            && (was.url == url && success ==>
                  item == StatusItem(url, Success, was.message, Some(ItemFiles(Some(UrlJson(url)), None))))
            && (was.url == url && !success ==>
                  item == StatusItem(url, Error, Some("Failed to process"), was.files))
            && (was.url != url ==> item == was)
  {
    var url := b.waiting[k].url;
    MarkUrlAt(b.statusItems, url, JobPatch(url, success), j);
  }

  /** Every job of a run sets the progress from the count captured when Start
      was clicked, never from the jobs finished since: all of them write the
      same value, and after a first start, from zero, that value is 0. */
  lemma StaleProgress(b: Board, k: nat, success: bool)
    requires !IsBlank(b.urls)
    requires |b.waiting| <= k < |Start(b).waiting|
    ensures Complete(Start(b), k, success).progress == RoundPercent(b.processedUrls, |UrlList(b.urls)|)
    ensures b.processedUrls == 0 ==> Complete(Start(b), k, success).progress == 0
  {
    StartListsEveryLine(b);
    var lines := UrlList(b.urls);
    assert Start(b).waiting[|b.waiting| + (k - |b.waiting|)] == Job(lines[k - |b.waiting|], |lines|, b.processedUrls);
    RoundPercentNearest(b.processedUrls, |lines|);
  }

  /** Only Stop clears `isProcessing`: a start on a non-blank text sets it,
      a finished job leaves it as it was, a stop clears it. */
  lemma ProcessingFlag(b: Board, k: nat, success: bool)
    requires k < |b.waiting|
    ensures Start(b).isProcessing == (b.isProcessing || !IsBlank(b.urls))
    ensures Complete(b, k, success).isProcessing == b.isProcessing
    ensures !Stop(b).isProcessing
    ensures Stop(b).waiting == b.waiting
  {
  }

  /** Start, Stop and Start again before the first run's job has finished,
      on a text of one listed line (the Start button is disabled only while
      processing, and Stop cancels no job): both jobs count, so
      `processedUrls` ends at 2 for a list of one. */
  lemma RestartOvercounts(b: Board)
    requires |UrlList(b.urls)| == 1 && b.waiting == []
    ensures |Start(Stop(Start(b))).waiting| == 2
    ensures Complete(Complete(Start(Stop(Start(b))), 0, true), 0, true).processedUrls == 2
  {
    BlankTextHasNoUrls(b.urls);
  }

  class UrlListProcessor {
    var urls: string
    var isProcessing: bool
    var progress: nat
    var processedUrls: nat
    var statusItems: seq<StatusItem>
    var files: seq<FileEntry>
    var stats: ProcessStats
    var controller: AbortController?
    /** The jobs whose timers have not fired yet. */
    var waiting: seq<Job>

    function View(): Board
      reads this
    {
      Board(urls, isProcessing, progress, processedUrls, statusItems, files, stats, waiting)
    }

    /** The initial state: no text, the placeholder files and stats. */
    constructor ()
      ensures View() == Board("", false, 0, 0, [], DemoFiles, DemoStats, [])
      ensures controller == null
    {
      urls := "";
      isProcessing := false;
      progress := 0;
      processedUrls := 0;
      statusItems := [];
      files := DemoFiles;
      stats := DemoStats;
      controller := null;
      waiting := [];
    }

    /** `onChange` of the text area. */
    method SetUrls(text: string)
      modifies this`urls
      ensures urls == text
    {
      urls := text;
    }

    /** `handleStartProcessing`: returns on a blank text; otherwise a new
        controller, the reset counters, and `processUrl` called on every
        non-blank line, each call appending a pending item and leaving a job. */
    method HandleStartProcessing()
      modifies this
      ensures View() == Start(old(View()))
      ensures !IsBlank(old(urls)) ==> fresh(controller)
      ensures IsBlank(old(urls)) ==> controller == old(controller)
    {
      if Trim(urls) == "" {
        BlankIffTrimEmpty(urls);
        return;
      }
      BlankIffTrimEmpty(urls);
      BlankTextHasNoUrls(urls);
      var stale := processedUrls;
      var lines := UrlList(urls);
      Begin();
      ProcessAll(lines, |lines|, stale);
    }

    /** The state written before the calls: a new controller, processing,
        the counters at zero, no items and no files. */
    method Begin()
      modifies this
      ensures View() == old(View()).(isProcessing := true, progress := 0, processedUrls := 0, statusItems := [], files := [])
      ensures fresh(controller)
    {
      controller := new AbortController();
      isProcessing := true;
      progress := 0;
      processedUrls := 0;
      statusItems := [];
      files := [];
    }

    /** The dispatch loop: one `processUrl` call per listed line, in order. */
    method ProcessAll(lines: seq<string>, n: Positive, stale: nat)
      requires statusItems == []
      modifies this`statusItems, this`waiting
      ensures statusItems == PendingItems(lines)
      ensures waiting == old(waiting) + Jobs(lines, n, stale)
    {
      for i := 0 to |lines|
        invariant statusItems == PendingItems(lines[..i])
        invariant waiting == old(waiting) + Jobs(lines[..i], n, stale)
      {
        assert lines[..i + 1][..i] == lines[..i];
        ProcessUrl(lines[i], n, stale);
      }
      assert lines[..|lines|] == lines;
    }

    /** The synchronous part of `processUrl`: the pending item, then the
        job waiting on its timer. */
    method ProcessUrl(url: string, total: Positive, stale: nat)
      modifies this`statusItems, this`waiting
      ensures statusItems == old(statusItems) + [PendingItem(url)]
      ensures waiting == old(waiting) + [Job(url, total, stale)]
    {
      statusItems := statusItems + [PendingItem(url)];
      waiting := waiting + [Job(url, total, stale)];
    }

    /** The rest of `processUrl` for the `k`-th waiting job, when its timer
        fires and `Math.random() > 0.2` gives `success`. */
    method FinishJob(k: nat, success: bool)
      requires k < |waiting|
      modifies this
      ensures View() == Complete(old(View()), k, success)
      ensures controller == old(controller)
    {
      var job := waiting[k];
      waiting := waiting[..k] + waiting[k + 1..];
      if success {
        statusItems := MarkUrl(statusItems, job.url, Patch(Success, None, Some(ItemFiles(Some(UrlJson(job.url)), None))));
        files := files + [JobFile(job.url)];
      } else {
        statusItems := MarkUrl(statusItems, job.url, Patch(Error, Some("Failed to process"), None));
      }
      processedUrls := processedUrls + 1;
      progress := RoundPercent(job.staleProcessed, job.total);
    }

    /** `handleStopProcessing`: aborts the controller if there is one and
        clears `isProcessing` in any case; the waiting jobs stay. */
    method HandleStopProcessing()
      modifies this, controller
      ensures View() == Stop(old(View()))
      ensures controller == old(controller)
      ensures controller != null ==> controller.aborted
    {
      if controller != null {
        controller.Abort();
      }
      isProcessing := false;
    }
  }
}
