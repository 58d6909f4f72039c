/** The HTTP routes over a research state: `/search`, `/analyze` and the
    resource deletion. */
module Research {
  import opened Wrappers
  import opened Resources
  import Web
  import Models

  /** The research state a route receives; the routes update it in place. */
  class ResearchState {
    var resources: seq<Resource>
    var report: string
    var researchQuestion: string
    var model: string

    constructor (resources: seq<Resource>, report: string, researchQuestion: string, model: string)
      ensures this.resources == resources && this.report == report
      ensures this.researchQuestion == researchQuestion && this.model == model
    {
      this.resources := resources;
      this.report := report;
      this.researchQuestion := researchQuestion;
      this.model := model;
    }
  }

  // ---------------------------------------------------------------------------
  // search_resources

  /** The search provider's answer: its list of hits, each a dictionary, or the
      text of the exception it raised. */
  datatype ProviderReply = Hits(results: seq<map<string, string>>) | ProviderError(message: string)

  /** Why the route failed: the provider raised, or hit number `index` lacks `key`. */
  datatype SearchError = ProviderFailed(message: string) | MissingKey(index: nat, key: string)

  const MaxResults: nat := 5

  /** The first of `url`, `title`, `snippet` (the order they are read in) that
      `hit` lacks. */
  function FirstMissingKey(hit: map<string, string>): (k: Option<string>)
    ensures k.None? <==> "url" in hit && "title" in hit && "snippet" in hit
    ensures k.Some? ==> k.value !in hit && k.value in {"url", "title", "snippet"}
  {
    if "url" !in hit then Some("url")
    else if "title" !in hit then Some("title")
    else if "snippet" !in hit then Some("snippet")
    else None
  }

  /** The number of hits the route looks at (`results[:5]`). */
  function TopCount(n: nat): (k: nat)
    ensures k <= MaxResults && k <= n
    ensures k == MaxResults || k == n
  {
    if n < MaxResults then n else MaxResults
  }

  /** `search_resources`: the first (at most five) hits turned into resources in
      order, `url` and `title` copied and `description` taken from `snippet`. */
  method SearchResources(reply: ProviderReply) returns (r: Result<seq<Resource>, SearchError>)
    ensures reply.ProviderError? ==> r == Err(ProviderFailed(reply.message))
    ensures reply.Hits? ==>
      (r.Ok? <==> forall i :: 0 <= i < TopCount(|reply.results|) ==> FirstMissingKey(reply.results[i]).None?)
    ensures reply.Hits? && r.Ok? ==>
      |r.value| == TopCount(|reply.results|) &&
      forall i :: 0 <= i < |r.value| ==>
        var hit := reply.results[i];
        "url" in hit && "title" in hit && "snippet" in hit &&
        r.value[i] == Resource(hit["url"], hit["title"], hit["snippet"], "")
    ensures reply.Hits? && r.Err? ==>
      r.error.MissingKey? && r.error.index < TopCount(|reply.results|) &&
      FirstMissingKey(reply.results[r.error.index]) == Some(r.error.key) &&
      forall j :: 0 <= j < r.error.index ==> FirstMissingKey(reply.results[j]).None?
  {
    if reply.ProviderError? {
      return Err(ProviderFailed(reply.message));
    }
    var hits := reply.results;
    var n := TopCount(|hits|);
    var found: seq<Resource> := [];
    var i := 0;
    while i < n
      invariant 0 <= i <= n
      invariant |found| == i
      invariant forall j :: 0 <= j < i ==> FirstMissingKey(hits[j]).None?
      invariant forall j :: 0 <= j < i ==>
        found[j] == Resource(hits[j]["url"], hits[j]["title"], hits[j]["snippet"], "")
    {
      var hit := hits[i];
      var missing := FirstMissingKey(hit);
      if missing.Some? {
        return Err(MissingKey(i, missing.value));
      }
      found := found + [Resource(hit["url"], hit["title"], hit["snippet"], "")];
      i := i + 1;
    }
    r := Ok(found);
  }

  // ---------------------------------------------------------------------------
  // delete_resource

  /** The resources whose URL differs from `url`, in their original order. */
  function WithoutUrl(rs: seq<Resource>, url: string): (r: seq<Resource>)
    ensures |r| <= |rs|
    ensures forall x :: x in r ==> x in rs && x.url != url
    decreases |rs|
  {
    if rs == [] then []
    else (if rs[0].url != url then [rs[0]] else []) + WithoutUrl(rs[1..], url)
  }

  /** `delete_resource`: replaces the resources by the filtered list; no other
      field changes. */
  method DeleteResource(url: string, state: ResearchState)
    modifies state
    ensures state.resources == WithoutUrl(old(state.resources), url)
    ensures state.report == old(state.report) && state.researchQuestion == old(state.researchQuestion)
    ensures state.model == old(state.model)
  {
    state.resources := WithoutUrl(state.resources, url);
  }

  /** Exactly the resources with another URL survive: none with `url` (so every
      duplicate goes), every other one stays. */
  lemma {:induction false} WithoutUrlMembers(rs: seq<Resource>, url: string, x: Resource)
    ensures x in WithoutUrl(rs, url) <==> x in rs && x.url != url
    decreases |rs|
  {
    if rs != [] {
      WithoutUrlMembers(rs[1..], url, x);
      assert rs == [rs[0]] + rs[1..];
    }
  }

  /** The filter distributes over concatenation, so the original order is kept. */
  lemma {:induction false} WithoutUrlAppend(a: seq<Resource>, b: seq<Resource>, url: string)
    ensures WithoutUrl(a + b, url) == WithoutUrl(a, url) + WithoutUrl(b, url)
    decreases |a|
  {
    if a == [] {
      assert a + b == b;
    } else {
      assert (a + b)[0] == a[0];
      assert (a + b)[1..] == a[1..] + b;
      WithoutUrlAppend(a[1..], b, url);
    }
  }

  /** Deleting a URL no resource has leaves the list as it was. */
  lemma {:induction false} WithoutAbsentUrl(rs: seq<Resource>, url: string)
    requires forall i :: 0 <= i < |rs| ==> rs[i].url != url
    ensures WithoutUrl(rs, url) == rs
    decreases |rs|
  {
    if rs != [] {
      WithoutAbsentUrl(rs[1..], url);
      assert rs == [rs[0]] + rs[1..];
    }
  }

  /** Deleting the same URL twice is the same as deleting it once. */
  lemma WithoutUrlIdempotent(rs: seq<Resource>, url: string)
    ensures WithoutUrl(WithoutUrl(rs, url), url) == WithoutUrl(rs, url)
  {
    var r := WithoutUrl(rs, url);
    assert forall i :: 0 <= i < |r| ==> r[i] in r;
    WithoutAbsentUrl(r, url);
  }

  /** Deletion keeps a list free of duplicate URLs. */
  lemma {:induction false} WithoutUrlKeepsDistinct(rs: seq<Resource>, url: string)
    requires DistinctUrls(rs)
    ensures DistinctUrls(WithoutUrl(rs, url))
    decreases |rs|
  {
    if rs != [] {
      var tail := rs[1..];
      assert DistinctUrls(tail) by {
        forall i, j | 0 <= i < j < |tail| ensures tail[i].url != tail[j].url {
          assert tail[i] == rs[i + 1] && tail[j] == rs[j + 1];
        }
      }
      WithoutUrlKeepsDistinct(tail, url);
      var r := WithoutUrl(tail, url);
      forall k | 0 <= k < |r| ensures r[k].url != rs[0].url {
        assert r[k] in r;
        var j :| 0 <= j < |tail| && tail[j] == r[k];
        assert tail[j] == rs[j + 1];
      }
    }
  }

  // ---------------------------------------------------------------------------
  // analyze_resources

  /** A resource after the download step: fetched and filled in when its content
      is empty, unchanged otherwise. `fetch` gives the network's answer for a URL. */
  function Refreshed(r: Resource, fetch: string -> Web.FetchOutcome, toText: string -> string): (r': Resource)
    ensures r'.url == r.url && r'.title == r.title && r'.description == r.description
    ensures r.content != "" ==> r' == r
    ensures r.content == "" ==> r'.content == Web.Downloaded(fetch(r.url), toText)
  {
    if r.content == "" then r.(content := Web.Downloaded(fetch(r.url), toText)) else r
  }

  /** True when some resource of `rs` with URL `url` has empty content. */
  ghost predicate NeedsDownload(rs: seq<Resource>, url: string) {
    exists i :: 0 <= i < |rs| && rs[i].url == url && rs[i].content == ""
  }

  /** The cache after the download step has gone through `rs` in order. */
  function CacheAfter(entries: map<string, string>, rs: seq<Resource>,
                      fetch: string -> Web.FetchOutcome, toText: string -> string): (m: map<string, string>)
    ensures entries.Keys <= m.Keys
    decreases |rs|
  {
    if rs == [] then entries
    else
      var prev := CacheAfter(entries, rs[..|rs| - 1], fetch, toText);
      var last := rs[|rs| - 1];
      if last.content == "" then prev[last.url := Web.Downloaded(fetch(last.url), toText)] else prev
  }

  /** After the download step every URL some empty resource carries is cached
      with its download, and every other entry is as it was. */
  lemma {:induction false} CacheAfterLookup(entries: map<string, string>, rs: seq<Resource>,
                                            fetch: string -> Web.FetchOutcome, toText: string -> string,
                                            url: string)
    ensures NeedsDownload(rs, url) ==>
      url in CacheAfter(entries, rs, fetch, toText) &&
      CacheAfter(entries, rs, fetch, toText)[url] == Web.Downloaded(fetch(url), toText)
    ensures !NeedsDownload(rs, url) ==>
      Web.Lookup(CacheAfter(entries, rs, fetch, toText), url) == Web.Lookup(entries, url) &&
      (url in CacheAfter(entries, rs, fetch, toText) <==> url in entries)
    decreases |rs|
  {
    if rs != [] {
      var n := |rs| - 1;
      var init := rs[..n];
      CacheAfterLookup(entries, init, fetch, toText, url);
      if NeedsDownload(rs, url) && !(rs[n].url == url && rs[n].content == "") {
        var i :| 0 <= i < |rs| && rs[i].url == url && rs[i].content == "";
        assert init[i] == rs[i];
      }
      if NeedsDownload(init, url) {
        var i :| 0 <= i < |init| && init[i].url == url && init[i].content == "";
        assert rs[i] == init[i];
      }
    }
  }

  const ExcerptLimit: nat := 1000

  /** The text shown to the model for a resource's content. */
  function Excerpt(content: string): (r: string)
    ensures |r| <= ExcerptLimit + 3
    ensures content == "" ==> r == "No content"
    ensures content != "" ==> |r| >= 4 && r[|r| - 3..] == "..." && r[..|r| - 3] <= content
    ensures content != "" && |content| <= ExcerptLimit ==> r == content + "..."
    ensures |content| >= ExcerptLimit ==> |r| == ExcerptLimit + 3
  {
    if content != "" then
      content[..if |content| < ExcerptLimit then |content| else ExcerptLimit] + "..."
    else "No content"
  }

  /** One entry of the resource list in the analysis prompt. */
  datatype ExcerptEntry = ExcerptEntry(url: string, title: string, content: string)

  /** What the model is asked: the question, the current report and one excerpt
      per resource, in order. */
  datatype AnalysisPrompt = AnalysisPrompt(researchQuestion: string, report: string, resources: seq<ExcerptEntry>)

  function Excerpts(rs: seq<Resource>): (es: seq<ExcerptEntry>)
    ensures |es| == |rs|
    ensures forall i :: 0 <= i < |rs| ==>
      es[i].url == rs[i].url && es[i].title == rs[i].title && es[i].content == Excerpt(rs[i].content)
  {
    seq(|rs|, i requires 0 <= i < |rs| => ExcerptEntry(rs[i].url, rs[i].title, Excerpt(rs[i].content)))
  }

  /** The download loop of `analyze_resources`: fills in, in place and through
      the cache, every resource whose content is empty. */
  method DownloadMissing(state: ResearchState, cache: Web.ResourceCache,
                         fetch: string -> Web.FetchOutcome, toText: string -> string)
    modifies state, cache
    ensures |state.resources| == |old(state.resources)|
    ensures forall i :: 0 <= i < |state.resources| ==>
      state.resources[i] == Refreshed(old(state.resources)[i], fetch, toText)
    ensures cache.entries == CacheAfter(old(cache.entries), old(state.resources), fetch, toText)
    ensures state.report == old(state.report) && state.researchQuestion == old(state.researchQuestion)
    ensures state.model == old(state.model)
  {
    ghost var original := state.resources;
    ghost var entries0 := cache.entries;
    var i := 0;
    while i < |state.resources|
      invariant 0 <= i <= |state.resources| == |original|
      invariant forall j :: 0 <= j < i ==> state.resources[j] == Refreshed(original[j], fetch, toText)
      invariant forall j :: i <= j < |original| ==> state.resources[j] == original[j]
      invariant cache.entries == CacheAfter(entries0, original[..i], fetch, toText)
      invariant state.report == old(state.report) && state.researchQuestion == old(state.researchQuestion)
      invariant state.model == old(state.model)
    {
      var resource := state.resources[i];
      assert original[..i + 1][..i] == original[..i];
      if resource.content == "" {
        var content := cache.Download(resource.url, fetch(resource.url), toText);
        state.resources := state.resources[i := resource.(content := content)];
      }
      i := i + 1;
    }
    assert original[..i] == original;
  }

  /** `analyze_resources`: downloads every resource whose content is empty, then
      asks the model for a new report. `predict` stands for the model call. An
      unknown model name raises after the downloads, leaving the report as it was. */
  method AnalyzeResources(state: ResearchState, cache: Web.ResourceCache,
                          fetch: string -> Web.FetchOutcome, toText: string -> string,
                          predict: (Models.Backend, AnalysisPrompt) -> string)
    returns (r: Result<(), string>)
    modifies state, cache
    ensures |state.resources| == |old(state.resources)|
    ensures forall i :: 0 <= i < |state.resources| ==>
      state.resources[i] == Refreshed(old(state.resources)[i], fetch, toText)
    ensures cache.entries == CacheAfter(old(cache.entries), old(state.resources), fetch, toText)
    ensures state.researchQuestion == old(state.researchQuestion) && state.model == old(state.model)
    ensures Models.GetModel(state.model).Err? ==>
      r == Err(Models.GetModel(state.model).error) && state.report == old(state.report)
    ensures Models.GetModel(state.model).Ok? ==>
      r == Ok(()) &&
      state.report == predict(Models.GetModel(state.model).value,
                              AnalysisPrompt(state.researchQuestion, old(state.report), Excerpts(state.resources)))
  {
    DownloadMissing(state, cache, fetch, toText);
    var backend := Models.GetModel(state.model);
    if backend.Err? {
      return Err(backend.error);
    }
    state.report := predict(backend.value,
                            AnalysisPrompt(state.researchQuestion, state.report, Excerpts(state.resources)));
    r := Ok(());
  }
}
