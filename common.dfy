/** Records the three handlers share: thrown exceptions, generated files,
    per-URL status items with their keyed updater, and the abort controller. */
module Common {
  import opened Text

  datatype Option<+T> = None | Some(value: T)

  /** A thrown JavaScript error: the handlers look at `name` and show `message`. */
  datatype Exception = Exception(name: string, message: string)

  const AbortErrorName: string := "AbortError"

  predicate IsAbort(e: Exception) {
    e.name == AbortErrorName
  }

  /** `response.ok`: a status in the range 200-299. */
  predicate IsOkStatus(status: nat) {
    200 <= status <= 299
  }

  /** The error a non-OK reply is turned into: `HTTP error! status: <status>`. */
  function HttpError(status: nat): Exception {
    Exception("Error", "HTTP error! status: " + DecimalString(status))
  }

  datatype FileKind = Json | Markdown

  /** One generated file as the file preview lists it. */
  datatype FileEntry = FileEntry(name: string, kind: FileKind, content: string, path: string)

  datatype Status = Pending | Success | Error

  datatype ItemFiles = ItemFiles(json: Option<string>, markdown: Option<string>)

  /** One row of the status panel; `message` and `files` are optional fields. */
  datatype StatusItem = StatusItem(url: string, status: Status, message: Option<string>, files: Option<ItemFiles>)

  /** The fields a functional updater spreads over a matching item: the status
      always, a message and files when given; a field given as `None` keeps the item's value. */
  datatype Patch = Patch(status: Status, message: Option<string>, files: Option<ItemFiles>)

  function Patched(item: StatusItem, p: Patch): StatusItem {
    StatusItem(item.url, p.status,
               if p.message.Some? then p.message else item.message,
               if p.files.Some? then p.files else item.files)
  }

  /** One item under the keyed update: patched when it has the URL, kept otherwise. */
  function MarkOne(item: StatusItem, url: string, p: Patch): StatusItem {
    if item.url == url then Patched(item, p) else item
  }

  /** The functional updater that spreads `p` over every item whose URL is
      `url`: the update is keyed by URL, never by position. */
  function MarkUrl(items: seq<StatusItem>, url: string, p: Patch): (r: seq<StatusItem>)
    ensures |r| == |items|
  {
    seq(|items|, i requires 0 <= i < |items| => MarkOne(items[i], url, p))
  }

  /** The keyed update at one position: an item keeps its URL; an item with
      the URL takes the patch's status and the patch's message and files
      where given, its own otherwise; any other item is left as it was. */
  lemma MarkUrlAt(items: seq<StatusItem>, url: string, p: Patch, i: nat)
    requires i < |items|
    ensures MarkUrl(items, url, p)[i] == MarkOne(items[i], url, p)
    ensures MarkUrl(items, url, p)[i].url == items[i].url
    ensures items[i].url == url ==>
              && MarkUrl(items, url, p)[i].status == p.status
              && MarkUrl(items, url, p)[i].message == (if p.message.Some? then p.message else items[i].message)
              && MarkUrl(items, url, p)[i].files == (if p.files.Some? then p.files else items[i].files)
    ensures items[i].url != url ==> MarkUrl(items, url, p)[i] == items[i]
  {
  }

  /** An `AbortController`; `abort()` raises its signal. */
  class AbortController {
    var aborted: bool

    constructor ()
      ensures !aborted
    {
      aborted := false;
    }

    method Abort()
      modifies this
      ensures aborted
    {
      aborted := true;
    }
  }
}
