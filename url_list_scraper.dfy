/** The URL list scraper: the non-blank lines of the text area are scraped one
    after the other, each with a status item keyed by its URL, two generated
    files per success, and counters for files and errors. */
module Scraping {
  import opened Common
  import opened Text

  /** The parsed body of a successful `/api/scrape-url` reply; `rawData` is
      the text `JSON.stringify(result.rawData, null, 2)` renders. */
  datatype ScrapeResult = ScrapeResult(jsonPath: string, markdownPath: string, rawData: string, markdownContent: string)

  /** What `response.json()` does with the body: a parsed result, or a rejection. */
  datatype Body = Parsed(result: ScrapeResult) | Unparsable(error: Exception)

  /** What one request gives: `fetch` rejects, or a reply with a status and a body. */
  datatype Reply = Rejected(error: Exception) | Responded(status: nat, body: Body)

  /** How the inner `try` ends: the result is used, or an error reaches the `catch`. */
  datatype Outcome = Scraped(result: ScrapeResult) | Failed(error: Exception)

  /** The rejection of a request whose signal has been aborted. */
  const Aborted: Exception := Exception(AbortErrorName, "")

  /** The inner `try`: a rejected fetch, a non-OK status or a body that does not
      parse is an error for the `catch`; an OK reply with a parsed body is a result. */
  function Classify(reply: Reply): (o: Outcome)
    ensures o.Scraped? <==> reply.Responded? && IsOkStatus(reply.status) && reply.body.Parsed?
    ensures reply.Responded? && !IsOkStatus(reply.status) ==> o == Failed(HttpError(reply.status))
    ensures reply.Rejected? ==> o == Failed(reply.error)
    ensures reply.Responded? && IsOkStatus(reply.status) && reply.body.Unparsable? ==> o == Failed(reply.body.error)
    ensures o.Scraped? ==> o.result == reply.body.result
  {
    match reply
    case Rejected(e) => Failed(e)
    case Responded(status, body) =>
      if !IsOkStatus(status) then Failed(HttpError(status))
      else match body
        case Parsed(r) => Scraped(r)
        case Unparsable(e) => Failed(e)
  }

  /** A percentage the component computes as `part / whole * 100`, kept as
      its two operands; `0` is `Percent(0, 1)`. */
  datatype Percent = Percent(part: nat, whole: nat)

  const ZeroPercent: Percent := Percent(0, 1)

  /** The number a percentage stands for. */
  function PercentValue(p: Percent): real
    requires p.whole > 0
  {
    p.part as real / p.whole as real * 100.0
  }

  /** A percentage of `k` out of `n` is `k * 100 / n`; all of `n` is 100. */
  lemma PercentOf(k: nat, n: nat)
    requires n > 0
    ensures PercentValue(Percent(k, n)) * n as real == k as real * 100.0
    ensures k == n ==> PercentValue(Percent(k, n)) == 100.0
    ensures k == 0 ==> PercentValue(Percent(k, n)) == 0.0
  {
    assert k as real / n as real * n as real == k as real;
    assert n as real / n as real == 1.0;
  }

  /** The four counters of the stats panel. */
  datatype ScrapeStats = ScrapeStats(totalTime: real, processedFiles: nat, errors: nat, successRate: Percent)

  const ZeroStats: ScrapeStats := ScrapeStats(0.0, 0, 0, ZeroPercent)

  /** The part of the component's state a run writes. */
  datatype ScrapeView = ScrapeView(progress: Percent, processedUrls: nat, statusItems: seq<StatusItem>,
                                   files: seq<FileEntry>, stats: ScrapeStats)

  /** The state a start writes before its loop. */
  const StartView: ScrapeView := ScrapeView(ZeroPercent, 0, [], [], ZeroStats)

  predicate IsAsciiAlnum(c: char) {
    'a' <= c <= 'z' || 'A' <= c <= 'Z' || '0' <= c <= '9'
  }

  /** The number of UTF-16 code units that encode `c`. */
  function Utf16Width(c: char): nat {
    if c as int <= 0xFFFF then 1 else 2
  }

  /** The length of `s` as JavaScript counts it, in UTF-16 code units. */
  function Utf16Length(s: string): nat {
    if s == [] then 0 else Utf16Length(s[..|s| - 1]) + Utf16Width(s[|s| - 1])
  }

  /** The file stem of a URL: ASCII letters and digits stay, every
      other UTF-16 code unit becomes an underscore, so a character outside the
      Basic Multilingual Plane, a surrogate pair, becomes two. */
  function Sanitize(url: string): (r: string)
    ensures |r| == Utf16Length(url)
    ensures forall i :: 0 <= i < |r| ==> IsAsciiAlnum(r[i]) || r[i] == '_'
  {
    if url == [] then []
    else
      var c := url[|url| - 1];
      Sanitize(url[..|url| - 1]) + (if IsAsciiAlnum(c) then [c] else if c as int <= 0xFFFF then "_" else "__")
  }

  /** A URL made of ASCII letters and digits only is its own file stem. */
  lemma {:induction false} SanitizeKeepsAlnum(url: string)
    requires forall i :: 0 <= i < |url| ==> IsAsciiAlnum(url[i])
    ensures Sanitize(url) == url
  {
    if url != [] {
      SanitizeKeepsAlnum(url[..|url| - 1]);
      assert url == url[..|url| - 1] + [url[|url| - 1]];
    }
  }

  /** For a URL whose characters each take one UTF-16 code unit, the stem
      keeps every ASCII letter and digit in place and has an underscore
      wherever the URL has any other character. */
  lemma {:induction false} SanitizeAt(url: string)
    requires forall i :: 0 <= i < |url| ==> Utf16Width(url[i]) == 1
    ensures |Sanitize(url)| == |url|
    ensures forall i :: 0 <= i < |url| ==> Sanitize(url)[i] == if IsAsciiAlnum(url[i]) then url[i] else '_'
  {
    if url != [] {
      var init, c := url[..|url| - 1], url[|url| - 1];
      SanitizeAt(init);
      assert Sanitize(url) == Sanitize(init) + (if IsAsciiAlnum(c) then [c] else "_");
    }
  }

  /** Sanitizing a file stem again changes nothing. */
  lemma SanitizeIdempotent(url: string)
    ensures Sanitize(Sanitize(url)) == Sanitize(url)
  {
    var s := Sanitize(url);
    forall i | 0 <= i < |s| ensures IsAsciiAlnum(s[i]) || s[i] == '_' { }
    SanitizeUnderscores(s);
  }

  /** A stem of letters, digits and underscores is its own sanitized form. */
  lemma {:induction false} SanitizeUnderscores(s: string)
    requires forall i :: 0 <= i < |s| ==> IsAsciiAlnum(s[i]) || s[i] == '_'
    ensures Sanitize(s) == s
  {
    if s != [] {
      SanitizeUnderscores(s[..|s| - 1]);
      assert s == s[..|s| - 1] + [s[|s| - 1]];
    }
  }

  /** The two files a success adds: `<stem>.json` with the rendered raw data
      at the JSON path, then `<stem>.md` with the Markdown at the Markdown path. */
  function ScrapedFiles(url: string, r: ScrapeResult): (fs: seq<FileEntry>)
    ensures |fs| == 2 && fs[0].name != fs[1].name
    ensures fs[0].kind == Json && EndsWith(fs[0].name, ".json") && fs[0].content == r.rawData
    ensures fs[1].kind == Markdown && EndsWith(fs[1].name, ".md") && fs[1].content == r.markdownContent
    ensures forall f :: f in fs ==> |Sanitize(url)| <= |f.name| && f.name[..|Sanitize(url)|] == Sanitize(url)
    ensures fs[0] == FileEntry(Sanitize(url) + ".json", Json, r.rawData, r.jsonPath)
    ensures fs[1] == FileEntry(Sanitize(url) + ".md", Markdown, r.markdownContent, r.markdownPath)
  {
    [FileEntry(Sanitize(url) + ".json", Json, r.rawData, r.jsonPath),
     FileEntry(Sanitize(url) + ".md", Markdown, r.markdownContent, r.markdownPath)]
  }

  /** The fields the `catch` or the success branch spreads over the URL's items. */
  function PatchFor(o: Outcome): (p: Patch)
    ensures p.message.Some?
    ensures p.status == Success <==> o.Scraped?
    ensures p.status != Pending
    ensures p.files.Some? <==> o.Scraped?
    ensures o.Scraped? ==>
              p == Patch(Success, Some("Successfully scraped"), Some(ItemFiles(Some(o.result.jsonPath), Some(o.result.markdownPath))))
    ensures o.Failed? && IsAbort(o.error) ==> p == Patch(Error, Some("Scraping aborted"), None)
    ensures o.Failed? && !IsAbort(o.error) ==> p == Patch(Error, Some(o.error.message), None)
  {
    match o
    case Scraped(r) => Patch(Success, Some("Successfully scraped"), Some(ItemFiles(Some(r.jsonPath), Some(r.markdownPath))))
    case Failed(e) =>
      if IsAbort(e) then Patch(Error, Some("Scraping aborted"), None)
      else Patch(Error, Some(e.message), None)
  }

  /** The pending item appended before the request. */
  function PendingItem(url: string): StatusItem {
    StatusItem(url, Pending, Some("Processing..."), None)
  }

  /** The files a success adds; a failure adds none. */
  function FilesFor(url: string, o: Outcome): seq<FileEntry> {
    if o.Scraped? then ScrapedFiles(url, o.result) else []
  }

  /** The counters after one iteration: a success adds two processed files,
      an error other than an abort adds one error, an abort adds nothing. */
  function Counted(stats: ScrapeStats, o: Outcome): (c: ScrapeStats)
    ensures c.processedFiles == stats.processedFiles + (if o.Scraped? then 2 else 0)
    ensures c.errors == stats.errors + (if o.Failed? && !IsAbort(o.error) then 1 else 0)
    ensures c.totalTime == stats.totalTime && c.successRate == stats.successRate
  {
    if o.Scraped? then stats.(processedFiles := stats.processedFiles + 2)
    else if IsAbort(o.error) then stats
    else stats.(errors := stats.errors + 1)
  }

  /** One iteration of the loop for the `i`-th of `n` URLs: the pending item
      is appended, then the items with that URL are patched by the outcome. */
  function Step(v: ScrapeView, url: string, i: nat, n: nat, o: Outcome): (r: ScrapeView)
    requires i < n
    ensures |r.statusItems| == |v.statusItems| + 1 && r.statusItems[|v.statusItems|].url == url
    ensures |r.files| == |v.files| + (if o.Scraped? then 2 else 0) && r.files[..|v.files|] == v.files
    ensures r.files == v.files + (if o.Scraped? then ScrapedFiles(url, o.result) else [])
    ensures r.stats.processedFiles == v.stats.processedFiles + (if o.Scraped? then 2 else 0)
    ensures r.stats.errors == v.stats.errors + (if o.Failed? && !IsAbort(o.error) then 1 else 0)
    ensures r.processedUrls == i + 1 && r.progress == Percent(i + 1, n)
  {
    MarkUrlAt(v.statusItems + [PendingItem(url)], url, PatchFor(o), |v.statusItems|);
    ScrapeView(Percent(i + 1, n), i + 1, MarkUrl(v.statusItems + [PendingItem(url)], url, PatchFor(o)),
               v.files + FilesFor(url, o), Counted(v.stats, o))
  }

  /** The reply to the `i`-th request: once Stop is pressed while request
      `stopAt` is in flight, that request and every later one reject with an
      abort error, because they all carry the aborted signal. */
  function ReplyAt(replyFor: (nat, string) -> Reply, stopAt: Option<nat>, i: nat, url: string): Reply {
    if stopAt.Some? && stopAt.value <= i then Rejected(Aborted) else replyFor(i, url)
  }

  function OutcomeAt(targets: seq<string>, replyFor: (nat, string) -> Reply, stopAt: Option<nat>, i: nat): Outcome
    requires i < |targets|
  {
    Classify(ReplyAt(replyFor, stopAt, i, targets[i]))
  }

  /** The outcome of every request of a run, in the order of the list. */
  function Outcomes(targets: seq<string>, replyFor: (nat, string) -> Reply, stopAt: Option<nat>): (os: seq<Outcome>)
    ensures |os| == |targets|
  {
    seq(|targets|, i requires 0 <= i < |targets| => OutcomeAt(targets, replyFor, stopAt, i))
  }

  /** The status items after the first `k` iterations over the trimmed URLs
      `targets`, whose requests had the outcomes `os`. */
  function ItemsAfter(targets: seq<string>, os: seq<Outcome>, k: nat): seq<StatusItem>
    requires k <= |targets| == |os|
  {
    if k == 0 then []
    else MarkUrl(ItemsAfter(targets, os, k - 1) + [PendingItem(targets[k - 1])], targets[k - 1], PatchFor(os[k - 1]))
  }

  /** The files after the first `k` iterations. */
  function FilesAfter(targets: seq<string>, os: seq<Outcome>, k: nat): seq<FileEntry>
    requires k <= |targets| == |os|
  {
    if k == 0 then [] else FilesAfter(targets, os, k - 1) + FilesFor(targets[k - 1], os[k - 1])
  }

  /** The counters after the first `k` iterations. */
  function StatsAfter(targets: seq<string>, os: seq<Outcome>, k: nat): (s: ScrapeStats)
    requires k <= |targets| == |os|
    ensures s.totalTime == 0.0 && s.successRate == ZeroPercent
  {
    if k == 0 then ZeroStats else Counted(StatsAfter(targets, os, k - 1), os[k - 1])
  }

  /** The state after the first `k` iterations. */
  function Run(targets: seq<string>, k: nat, replyFor: (nat, string) -> Reply, stopAt: Option<nat>): (v: ScrapeView)
    requires k <= |targets|
    ensures v.processedUrls == k
    ensures v.progress == if k == 0 then ZeroPercent else Percent(k, |targets|)
    ensures v.stats.totalTime == 0.0 && v.stats.successRate == ZeroPercent
  {
    var os := Outcomes(targets, replyFor, stopAt);
    ScrapeView(if k == 0 then ZeroPercent else Percent(k, |targets|), k,
               ItemsAfter(targets, os, k), FilesAfter(targets, os, k), StatsAfter(targets, os, k))
  }

  /** One more iteration of the loop takes the run one step further. */
  lemma RunStep(targets: seq<string>, k: nat, replyFor: (nat, string) -> Reply, stopAt: Option<nat>)
    requires k < |targets|
    ensures Run(targets, k + 1, replyFor, stopAt)
            == Step(Run(targets, k, replyFor, stopAt), targets[k], k, |targets|, OutcomeAt(targets, replyFor, stopAt, k))
  {
  }

  /** The number of items with status `success`. */
  function Successes(items: seq<StatusItem>): nat {
    if items == [] then 0
    else Successes(items[..|items| - 1]) + (if items[|items| - 1].status == Success then 1 else 0)
  }

  /** The `finally` block's success rate: it counts the successes in the status
      list the handler was created with, the list from before the run. */
  function StaleRate(before: seq<StatusItem>, n: nat): Percent {
    Percent(Successes(before), n)
  }

  /** The `finally` block: total time in seconds and the success rate are
      written over the run's stats; the other counters are kept. */
  function Finished(v: ScrapeView, before: seq<StatusItem>, n: nat, elapsedMs: nat): (r: ScrapeView)
    requires n > 0
    ensures r.progress == v.progress && r.processedUrls == v.processedUrls
    ensures r.statusItems == v.statusItems && r.files == v.files
    ensures r.stats.processedFiles == v.stats.processedFiles && r.stats.errors == v.stats.errors
    ensures r.stats.successRate == StaleRate(before, n) && r.stats.totalTime * 1000.0 == elapsedMs as real
  {
    v.(stats := v.stats.(totalTime := elapsedMs as real / 1000.0, successRate := StaleRate(before, n)))
  }

  /** The number of successful iterations among the first `k`. */
  function Scrapes(os: seq<Outcome>, k: nat): nat
    requires k <= |os|
  {
    if k == 0 then 0 else Scrapes(os, k - 1) + (if os[k - 1].Scraped? then 1 else 0)
  }

  /** The number of iterations among the first `k` that failed other than by an abort. */
  function CountedErrors(os: seq<Outcome>, k: nat): nat
    requires k <= |os|
  {
    if k == 0 then 0 else CountedErrors(os, k - 1) + (if os[k - 1].Failed? && !IsAbort(os[k - 1].error) then 1 else 0)
  }

  /** The `j`-th status item belongs to the `j`-th target: there is one item
      per iteration, and updates by URL never move or rename an item. */
  lemma ItemsInOrder(targets: seq<string>, os: seq<Outcome>, k: nat)
    requires k <= |targets| == |os|
    ensures |ItemsAfter(targets, os, k)| == k
    ensures forall j :: 0 <= j < k ==> ItemsAfter(targets, os, k)[j].url == targets[j]
  {
    ItemsCount(targets, os, k);
    forall j | 0 <= j < k
      ensures ItemsAfter(targets, os, k)[j].url == targets[j]
    {
      ItemUrl(targets, os, k, j);
    }
  }

  /** Each iteration appends exactly one item. */
  lemma {:induction false} ItemsCount(targets: seq<string>, os: seq<Outcome>, k: nat)
    requires k <= |targets| == |os|
    ensures |ItemsAfter(targets, os, k)| == k
  {
    if k > 0 {
      ItemsCount(targets, os, k - 1);
    }
  }

  /** One iteration seen from the `j`-th item: the item, or the pending item
      when `j` is the new one, goes through the keyed update. */
  lemma ItemAtStep(targets: seq<string>, os: seq<Outcome>, k: nat, j: nat)
    requires j < k <= |targets| == |os|
    ensures |ItemsAfter(targets, os, k - 1)| == k - 1 && |ItemsAfter(targets, os, k)| == k
    ensures ItemsAfter(targets, os, k)[j]
            == MarkOne(if j < k - 1 then ItemsAfter(targets, os, k - 1)[j] else PendingItem(targets[k - 1]),
                       targets[k - 1], PatchFor(os[k - 1]))
  {
    ItemsCount(targets, os, k - 1);
    var prev := ItemsAfter(targets, os, k - 1);
    var items := prev + [PendingItem(targets[k - 1])];
    MarkUrlAt(items, targets[k - 1], PatchFor(os[k - 1]), j);
    if j < k - 1 {
      assert items[j] == prev[j];
    }
  }

  /** The `j`-th item belongs to the `j`-th target. */
  lemma {:induction false} ItemUrl(targets: seq<string>, os: seq<Outcome>, k: nat, j: nat)
    requires j < k <= |targets| == |os|
    ensures |ItemsAfter(targets, os, k)| == k
    ensures ItemsAfter(targets, os, k)[j].url == targets[j]
  {
    ItemAtStep(targets, os, k, j);
    if j < k - 1 {
      ItemUrl(targets, os, k - 1, j);
    }
  }

  /** A run over the whole list ends with every URL processed, one status
      item per URL, and the progress at 100. */
  lemma FullRunComplete(targets: seq<string>, replyFor: (nat, string) -> Reply, stopAt: Option<nat>)
    requires targets != []
    ensures var v := Run(targets, |targets|, replyFor, stopAt);
            && v.processedUrls == |targets| == |v.statusItems|
            && PercentValue(v.progress) == 100.0
  {
    ItemsCount(targets, Outcomes(targets, replyFor, stopAt), |targets|);
    PercentOf(|targets|, |targets|);
  }

  /** Two files per success and none for a failure. */
  lemma {:induction false} FilesPerSuccess(targets: seq<string>, os: seq<Outcome>, k: nat)
    requires k <= |targets| == |os|
    ensures |FilesAfter(targets, os, k)| == 2 * Scrapes(os, k)
  {
    if k > 0 {
      FilesPerSuccess(targets, os, k - 1);
    }
  }

  /** The counters: `processedFiles` is twice the successes, so it equals the
      number of files, and `errors` counts the failures that are not aborts. */
  lemma {:induction false} RunCounts(targets: seq<string>, os: seq<Outcome>, k: nat)
    requires k <= |targets| == |os|
    ensures StatsAfter(targets, os, k).processedFiles == 2 * Scrapes(os, k)
    ensures StatsAfter(targets, os, k).errors == CountedErrors(os, k)
  {
    if k > 0 {
      RunCounts(targets, os, k - 1);
    }
  }

  /** `urlList[i].trim()` for every listed line: the URLs the loop requests. */
  function Trimmed(lines: seq<string>): (r: seq<string>)
    ensures |r| == |lines|
  {
    seq(|lines|, i requires 0 <= i < |lines| => Trim(lines[i]))
  }

  /** The most recent of the first `k` iterations whose trimmed URL is `url`, or -1. */
  function LastIndex(targets: seq<string>, k: nat, url: string): (m: int)
    requires k <= |targets|
    ensures -1 <= m < k
    ensures m >= 0 ==> targets[m] == url
  {
    if k == 0 then -1
    else if targets[k - 1] == url then k - 1
    else LastIndex(targets, k - 1, url)
  }

  /** Status items are updated by URL, not by position: the `j`-th item shows
      the status and message of the latest iteration for its URL, so an item
      whose URL is listed again later is overwritten by that later request. */
  lemma {:induction false} LatestWins(targets: seq<string>, os: seq<Outcome>, k: nat, j: nat)
    requires j < k <= |targets| == |os|
    ensures var items := ItemsAfter(targets, os, k);
            var m := LastIndex(targets, k, targets[j]);
            && j <= m
            && |items| == k
            && items[j].status == PatchFor(os[m]).status
            && items[j].message == PatchFor(os[m]).message
  {
    LastIndexStep(targets, k, targets[j]);
    ItemAtStep(targets, os, k, j);
    if j < k - 1 {
      ItemUrl(targets, os, k - 1, j);
      LatestWins(targets, os, k - 1, j);
    }
  }

  /** The last match among the first `k` is the `k`-th target when it
      matches, and the last match among the first `k - 1` otherwise. */
  lemma LastIndexStep(targets: seq<string>, k: nat, url: string)
    requires 0 < k <= |targets|
    ensures LastIndex(targets, k, url) == if targets[k - 1] == url then k - 1 else LastIndex(targets, k - 1, url)
  {
  }

  /** Once Stop is pressed while request `s` is in flight, that request and
      every later one end in an abort. */
  lemma StoppedOutcomes(targets: seq<string>, replyFor: (nat, string) -> Reply, s: nat, i: nat)
    requires s <= i < |targets|
    ensures Outcomes(targets, replyFor, Some(s))[i] == Failed(Aborted)
  {
  }

  /** Aborted requests add no file and change no counter. */
  lemma {:induction false} AbortsChangeNothing(targets: seq<string>, os: seq<Outcome>, s: nat, k: nat)
    requires s <= k <= |targets| == |os|
    requires forall i :: s <= i < |os| ==> os[i] == Failed(Aborted)
    ensures FilesAfter(targets, os, k) == FilesAfter(targets, os, s)
    ensures StatsAfter(targets, os, k) == StatsAfter(targets, os, s)
  {
    if k > s {
      AbortsChangeNothing(targets, os, s, k - 1);
      assert os[k - 1] == Failed(Aborted);
      assert FilesAfter(targets, os, k) == FilesAfter(targets, os, k - 1) + [];
    }
  }

  /** Pressing Stop while request `s` is in flight: the files and the counters
      stay as the first `s` iterations left them. */
  lemma StopFreezesCounters(targets: seq<string>, k: nat, replyFor: (nat, string) -> Reply, s: nat)
    requires s <= k <= |targets|
    ensures var os := Outcomes(targets, replyFor, Some(s));
            && FilesAfter(targets, os, k) == FilesAfter(targets, os, s)
            && StatsAfter(targets, os, k) == StatsAfter(targets, os, s)
  {
    var os := Outcomes(targets, replyFor, Some(s));
    forall i | s <= i < |os| ensures os[i] == Failed(Aborted) {
      StoppedOutcomes(targets, replyFor, s, i);
    }
    AbortsChangeNothing(targets, os, s, k);
  }

  /** Pressing Stop while request `s` is in flight: every item from the
      `s`-th on ends as `error` with the message "Scraping aborted". */
  lemma StopAbortsRest(targets: seq<string>, k: nat, j: nat, replyFor: (nat, string) -> Reply, s: nat)
    requires s <= j < k <= |targets|
    ensures var items := ItemsAfter(targets, Outcomes(targets, replyFor, Some(s)), k);
            && |items| == k
            && items[j].status == Error
            && items[j].message == Some("Scraping aborted")
  {
    var os := Outcomes(targets, replyFor, Some(s));
    LatestWins(targets, os, k, j);
    StoppedOutcomes(targets, replyFor, s, LastIndex(targets, k, targets[j]));
  }

  /** Runs whose first `k` outcomes agree agree on their first `k` iterations. */
  lemma {:induction false} SameOutcomesSameRun(targets: seq<string>, os: seq<Outcome>, os': seq<Outcome>, k: nat)
    requires k <= |targets| == |os| == |os'|
    requires os[..k] == os'[..k]
    ensures ItemsAfter(targets, os, k) == ItemsAfter(targets, os', k)
    ensures FilesAfter(targets, os, k) == FilesAfter(targets, os', k)
    ensures StatsAfter(targets, os, k) == StatsAfter(targets, os', k)
  {
    if k > 0 {
      assert os[..k - 1] == os[..k][..k - 1] && os'[..k - 1] == os'[..k][..k - 1];
      SameOutcomesSameRun(targets, os, os', k - 1);
      assert os[k - 1] == os[..k][k - 1] == os'[..k][k - 1] == os'[k - 1];
    }
  }

  /** Iterations before the one in flight when Stop is pressed go as they would without Stop. */
  lemma StopKeepsEarlierIterations(targets: seq<string>, k: nat, replyFor: (nat, string) -> Reply, s: nat)
    requires k <= s && k <= |targets|
    ensures var stopped, unstopped := Outcomes(targets, replyFor, Some(s)), Outcomes(targets, replyFor, None);
            && ItemsAfter(targets, stopped, k) == ItemsAfter(targets, unstopped, k)
            && FilesAfter(targets, stopped, k) == FilesAfter(targets, unstopped, k)
            && StatsAfter(targets, stopped, k) == StatsAfter(targets, unstopped, k)
  {
    var stopped, unstopped := Outcomes(targets, replyFor, Some(s)), Outcomes(targets, replyFor, None);
    assert stopped[..k] == unstopped[..k];
    SameOutcomesSameRun(targets, stopped, unstopped, k);
  }

  /** The success rate the `finally` block writes reads the status list from
      before the run: whatever this run's replies, it is the share of
      successes in that old list, so a first run reports 0 even when every URL
      succeeded. */
  lemma StaleSuccessRate(targets: seq<string>, before: seq<StatusItem>, replyFor: (nat, string) -> Reply,
                         stopAt: Option<nat>, elapsedMs: nat)
    requires targets != []
    ensures var v := Finished(Run(targets, |targets|, replyFor, stopAt), before, |targets|, elapsedMs);
            && v.stats.successRate == Percent(Successes(before), |targets|)
            && (before == [] ==> PercentValue(v.stats.successRate) == 0.0)
  {
    PercentOf(0, |targets|);
  }

  class UrlListScraper {
    var urls: string
    var isProcessing: bool
    var progress: Percent
    var processedUrls: nat
    var statusItems: seq<StatusItem>
    var files: seq<FileEntry>
    var stats: ScrapeStats
    var controller: AbortController?

    function View(): ScrapeView
      reads this
    {
      ScrapeView(progress, processedUrls, statusItems, files, stats)
    }

    /** The initial state: no text, nothing processed, zeroed stats. */
    constructor ()
      ensures urls == "" && !isProcessing && controller == null
      ensures View() == StartView
    {
      urls := "";
      isProcessing := false;
      progress := ZeroPercent;
      processedUrls := 0;
      statusItems := [];
      files := [];
      stats := ZeroStats;
      controller := null;
    }

    /** `onChange` of the text area. */
    method SetUrls(text: string)
      modifies this`urls
      ensures urls == text
    {
      urls := text;
    }

    /** `handleStartScraping`: a no-op while processing or when no line is
        non-blank; otherwise the state is reset and the listed lines are
        scraped in order, each trimmed, and the `finally` block writes the
        time and the stale success rate and clears `isProcessing` and the
        controller. `replyFor(i, url)` is what request `i` gets; `stopAt` is
        the request in flight when Stop is pressed, if it is. */
    method HandleStartScraping(replyFor: (nat, string) -> Reply, stopAt: Option<nat>, elapsedMs: nat)
      modifies this
      ensures old(isProcessing) || UrlList(old(urls)) == [] ==> unchanged(this)
      ensures !old(isProcessing) && UrlList(old(urls)) != [] ==>
                var targets := Trimmed(UrlList(old(urls)));
                && View() == Finished(Run(targets, |targets|, replyFor, stopAt), old(statusItems), |targets|, elapsedMs)
                && !isProcessing && controller == null && urls == old(urls)
    {
      if isProcessing {
        return;
      }
      var list := UrlList(urls);
      if |list| == 0 {
        return;
      }
      var before := statusItems;
      Begin();
      ScrapeAll(list, replyFor, stopAt);
      Finish(before, |list|, elapsedMs);
    }

    /** The state written before the loop: processing, nothing processed,
        zeroed stats and a new controller. */
    method Begin()
      modifies this
      ensures View() == StartView && isProcessing && fresh(controller)
      ensures urls == old(urls)
    {
      isProcessing := true;
      progress := ZeroPercent;
      processedUrls := 0;
      statusItems := [];
      files := [];
      stats := ZeroStats;
      controller := new AbortController();
    }

    /** The `finally` block: the elapsed time in seconds and the success rate
        of the status list `before`, then processing ends and the controller
        is dropped. */
    method Finish(before: seq<StatusItem>, n: nat, elapsedMs: nat)
      requires n > 0
      modifies this
      ensures View() == Finished(old(View()), before, n, elapsedMs)
      ensures !isProcessing && controller == null && urls == old(urls)
    {
      stats := stats.(totalTime := elapsedMs as real / 1000.0, successRate := StaleRate(before, n));
      isProcessing := false;
      controller := null;
    }

    /** The `for` loop over the listed lines, each trimmed before use. */
    method ScrapeAll(list: seq<string>, replyFor: (nat, string) -> Reply, stopAt: Option<nat>)
      requires View() == StartView
      modifies this`progress, this`processedUrls, this`statusItems, this`files, this`stats
      ensures View() == Run(Trimmed(list), |list|, replyFor, stopAt)
    {
      for i := 0 to |list|
        invariant View() == Run(Trimmed(list), i, replyFor, stopAt)
      {
        var url := Trim(list[i]);
        ScrapeNext(list, i, url, replyFor, stopAt);
      }
    }

    /** The body of the loop for the `i`-th listed line, whose trimmed text is `url`. */
    method ScrapeNext(list: seq<string>, i: nat, url: string, replyFor: (nat, string) -> Reply, stopAt: Option<nat>)
      requires i < |list| && url == Trim(list[i])
      requires View() == Run(Trimmed(list), i, replyFor, stopAt)
      modifies this`progress, this`processedUrls, this`statusItems, this`files, this`stats
      ensures View() == Run(Trimmed(list), i + 1, replyFor, stopAt)
    {
      RunStep(Trimmed(list), i, replyFor, stopAt);
      ScrapeOne(url, i, |list|, ReplyAt(replyFor, stopAt, i, url));
    }

    /** One iteration: the pending item, the request, then the success branch
        or the `catch`, then the processed count and the progress. */
    method ScrapeOne(url: string, i: nat, n: nat, reply: Reply)
      requires i < n
      modifies this`progress, this`processedUrls, this`statusItems, this`files, this`stats
      ensures View() == Step(old(View()), url, i, n, Classify(reply))
    {
      statusItems := statusItems + [PendingItem(url)];
      match Classify(reply) {
        case Scraped(r) =>
          statusItems := MarkUrl(statusItems, url, Patch(Success, Some("Successfully scraped"),
                                                         Some(ItemFiles(Some(r.jsonPath), Some(r.markdownPath)))));
          files := files + ScrapedFiles(url, r);
          stats := stats.(processedFiles := stats.processedFiles + 2);
        case Failed(e) =>
          if e.name == AbortErrorName {
            statusItems := MarkUrl(statusItems, url, Patch(Error, Some("Scraping aborted"), None));
          } else {
            statusItems := MarkUrl(statusItems, url, Patch(Error, Some(e.message), None));
            stats := stats.(errors := stats.errors + 1);
          }
      }
      processedUrls := i + 1;
      progress := Percent(i + 1, n);
    }

    /** `handleStopScraping`: acts only when a controller exists, aborting it
        and clearing `isProcessing`; the controller stays in place. */
    method HandleStopScraping()
      modifies this, controller
      ensures old(controller) != null ==> old(controller).aborted && !isProcessing
      ensures old(controller) == null ==> unchanged(this)
      ensures controller == old(controller)
      ensures View() == old(View()) && urls == old(urls)
    {
      if controller != null {
        controller.Abort();
        isProcessing := false;
      }
    }
  }
}
