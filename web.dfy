/** The process-wide cache of downloaded pages and the download that fills it. */
module Web {

  /** What fetching and converting a page produced: the response body, or the
      text of the exception raised by the request, the timeout, the status check
      or the HTML-to-text conversion. */
  datatype FetchOutcome = Fetched(body: string) | FetchFailed(cause: string)

  const ErrorPrefix: string := "Error downloading resource: "

  /** The value a download stores and returns for a given fetch outcome;
      `toText` is the HTML-to-text conversion. */
  function Downloaded(outcome: FetchOutcome, toText: string -> string): (r: string)
    ensures outcome.FetchFailed? ==> |r| == |ErrorPrefix| + |outcome.cause|
    ensures outcome.FetchFailed? ==> r[..|ErrorPrefix|] == ErrorPrefix && r[|ErrorPrefix|..] == outcome.cause
    ensures outcome.Fetched? ==> r == toText(outcome.body)
  {
    match outcome
    case Fetched(body) => toText(body)
    case FetchFailed(cause) => ErrorPrefix + cause
  }

  /** A cache lookup that defaults to the empty string for a URL never stored. */
  function Lookup(entries: map<string, string>, url: string): (r: string)
    ensures url !in entries ==> r == ""
    ensures url in entries ==> r == entries[url]
  {
    if url in entries then entries[url] else ""
  }

  /** A failed download is stored as a non-empty marker that is never the
      string "ERROR", whatever the cause. */
  lemma FailureMarkerIsNotSentinel(cause: string, toText: string -> string)
    ensures Downloaded(FetchFailed(cause), toText) != ""
    ensures Downloaded(FetchFailed(cause), toText) != "ERROR"
  {
    var r := Downloaded(FetchFailed(cause), toText);
    assert r[0] == 'E' && r[1] == 'r' && r[2] == 'r' && r[3] == 'o' && r[4] == 'r';
    assert |r| > 5;
  }

  /** `_RESOURCE_CACHE` together with `get_resource` and `download_resource`. */
  class ResourceCache {
    var entries: map<string, string>

    constructor ()
      ensures entries == map[]
    {
      entries := map[];
    }

    /** `get_resource`: total, never fails. */
    function Get(url: string): (r: string)
      reads this
      ensures url !in entries ==> r == ""
      ensures url in entries ==> r == entries[url]
    {
      Lookup(entries, url)
    }

    /** `download_resource`: stores exactly one entry, for `url`, on both the
        success and the failure path, and returns what it stored. */
    method Download(url: string, outcome: FetchOutcome, toText: string -> string) returns (content: string)
      modifies this
      ensures content == Downloaded(outcome, toText)
      ensures entries == old(entries)[url := content]
      ensures Get(url) == content
      ensures forall u :: u != url ==> Get(u) == old(Get(u))
    {
      match outcome {
        case Fetched(body) =>
          content := toText(body);
          entries := entries[url := content];
        case FetchFailed(cause) =>
          content := ErrorPrefix + cause;
          entries := entries[url := content];
      }
    }
  }
}
