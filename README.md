# Research assistant core, modelled in Dafny

The system is a conversational research assistant. An agent graph converses
with a language model that can search for sources, delete sources, and write a
research question and a report. This project models the deterministic part of
it:

- `Agent` (`agent.dfy`): the agent state, and `chat_node`. The node first
  hydrates the resource list from the content cache. Entries whose cached value
  is the `"ERROR"` sentinel are dropped. Then it dispatches on the first tool
  call in the model's reply and returns a command: the next node and the fields
  to overwrite. `search_node` and `delete_node` are modelled as written, as
  pass-throughs that return the state unchanged.
- `Web` (`web.dfy`): the process-wide resource cache as a class holding a
  URL-to-text map. `Get` models `get_resource` (a lookup defaulting to `""`).
  `Download` models `download_resource`: it stores one entry, the converted page
  or an `Error downloading resource: …` marker, and returns the stored value.
- `Research` (`research.dfy`): the HTTP routes. `/search` keeps the top five
  provider hits as resources. The deletion route filters the resources by URL.
  `/analyze` downloads every resource with empty content in place, then asks
  the model for a new report from a prompt holding one excerpt per resource:
  the first 1000 characters plus `...`, or `No content`.
- `Models` (`models.dfy`): which model names `get_model` accepts, and the
  `Unknown model: …` error raised for any other name. Both `chat_node` and
  `/analyze` can raise that error.
- `Resources` and `Wrappers`: the shared `Resource` record and the `Option` /
  `Result` datatypes.

External calls become parameters:

- the language model: `invoke` for the agent and `predict` for `/analyze`, each
  given the selected back end and the prompt;
- the HTTP fetch: a `FetchOutcome` for one download, or `fetch` mapping a URL to
  its outcome for `/analyze`;
- the HTML-to-text conversion: `toText`;
- the search provider: its reply, a `ProviderReply`.

A resource's missing content and its empty content are both `""`. The code
treats them the same way: it tests `not resource.content` and uses
`get_resource`'s default.

Two consequences of the code as written are proved rather than assumed:

- A failed download is stored as `Error downloading resource: <cause>`. That
  string never equals the `"ERROR"` sentinel. So hydration keeps resources
  whose download failed, with the error marker as their content
  (`Agent.FailedDownloadIsKept`).
- A resource with no cache entry is also kept, with empty content
  (`Agent.UncachedResourceIsKept`).

Further consequences of the code as written:

- Uncached resources stay in the hydrated view: `get_resource` returns `""`,
  which is not the sentinel (`Agent.UncachedResourceIsKept`).
- Only the first tool call is read (`Agent.OnlyFirstToolCallMatters`).
- The search and delete nodes return their state unchanged. A `Search` round
  adds no resource (`Agent.SearchRoundAddsNothing`), and a `DeleteResources`
  round removes none (`Agent.DeleteRoundRemovesNothing`).
- A successful download stores whatever the conversion returns, which may be
  empty; only the failure marker is proved non-empty
  (`Web.FailureMarkerIsNotSentinel`).

## Model

| member | source | states |
|---|---|---|
| `Models.GetModel` | backend/app/models.py:7-22 | a back end is chosen exactly for `openai`, `anthropic` and `google_genai`; any other name gives `Unknown model: ` followed by the name |
| `Web.Downloaded` | backend/app/utils/web.py:14-25 | a failed fetch yields `Error downloading resource: ` followed by the cause; a successful one yields the conversion of the body |
| `Web.Lookup` | backend/app/utils/web.py:10 | a URL never stored reads as `""`; a stored one reads as its entry |
| `Web.FailureMarkerIsNotSentinel` | backend/app/utils/web.py:22-25 | a failure marker is never empty and never equals the `"ERROR"` sentinel |
| `Web.ResourceCache.constructor` | backend/app/utils/web.py:6 | the cache starts empty |
| `Web.ResourceCache.Get` | backend/app/utils/web.py:8-10 | `get_resource` is total: `""` for a URL never written, otherwise the stored value |
| `Web.ResourceCache.Download` | backend/app/utils/web.py:12-25 | the cache gains exactly the entry for `url`, equal to the returned value on both paths; every other URL reads as before, so the latest download wins |
| `Agent.Apply` | backend/app/agent.py:86-94 | applying an update replaces the history, sets the report or question to the carried value when the update carries one and keeps it otherwise, and never touches resources or model |
| `Agent.Hydrated` | backend/app/agent.py:40-44 | the hydrated view is no longer than the list, and each entry carries its cached value, which is not the sentinel |
| `Agent.Hydrate` | backend/app/agent.py:40-44 | the hydration loop computes exactly the hydrated view and changes nothing |
| `Agent.HydratedAppend` | backend/app/agent.py:40-44 | hydration distributes over concatenation, so the original order is kept |
| `Agent.HydratedMembers` | backend/app/agent.py:40-44 | a resource is in the view if and only if its cached value is not `"ERROR"`, and it appears with that value as content |
| `Agent.HydratedKeepsAll` | backend/app/agent.py:41-44 | with no sentinel in the cache, the view is the whole list, position by position, with cached content |
| `Agent.UncachedResourceIsKept` | backend/app/agent.py:42-43 | a resource never cached stays in the view, with empty content |
| `Agent.FailedDownloadIsKept` | backend/app/agent.py:42-44 | a resource whose download failed stays in the view, with the error marker as content |
| `Agent.Dispatch` | backend/app/agent.py:67-94 | on every path the reply is appended to the history |
| `Agent.Arg` | backend/app/agent.py:82-84 | a tool argument is its value when present and `""` when absent |
| `Agent.ChatNodeStep` | backend/app/agent.py:39-94 | an unknown model raises; otherwise the command is the dispatch of the reply the model gives for the question, the report, the hydrated resources and the history |
| `Agent.SearchNodeStep` | backend/app/agent.py:96-98 | the search node returns its state unchanged |
| `Agent.DeleteNodeStep` | backend/app/agent.py:100-102 | the delete node returns its state unchanged |
| `Agent.DispatchTarget` | backend/app/agent.py:68-94 | each target node, in both directions: `search_node` iff the first call is `Search`, `delete_node` iff `DeleteResources`, `chat_node` iff a write tool, `__end__` iff there is no call or an unknown name |
| `Agent.DispatchAppendsReply` | backend/app/agent.py:77-94 | after any transition the history is the old history plus the reply (one longer), and resources and model are unchanged |
| `Agent.NoActionEnds` | backend/app/agent.py:68-94 | with no call or an unknown first call, the run ends and only the history changes |
| `Agent.SearchOrDeleteOnlyAppends` | backend/app/agent.py:72-94 | `Search` goes to `search_node`, `DeleteResources` to `delete_node`, and only the history changes |
| `Agent.WriteReportUpdatesReport` | backend/app/agent.py:76-89 | `WriteReport` returns to `chat_node`, sets the report to the `report` argument (or `""`), appends the reply, and leaves the question untouched |
| `Agent.WriteResearchQuestionUpdatesQuestion` | backend/app/agent.py:76-89 | `WriteResearchQuestion` returns to `chat_node`, sets the question to the `research_question` argument (or `""`), appends the reply, and leaves the report untouched |
| `Agent.OnlyFirstToolCallMatters` | backend/app/agent.py:70-71 | replies that agree on their first tool call give the same next node and the same state apart from the appended reply |
| `Agent.SearchRoundAddsNothing` | backend/app/agent.py:96-98 | a `Search` round leaves the resources exactly as they were |
| `Agent.DeleteRoundRemovesNothing` | backend/app/agent.py:100-102 | a `DeleteResources` round leaves the resources exactly as they were |
| `Research.FirstMissingKey` | backend/app/routers/research.py:21-23 | a hit is usable iff it has `url`, `title` and `snippet`; otherwise the key reported is one it lacks |
| `Research.TopCount` | backend/app/routers/research.py:19 | the number of hits kept is `min(5, n)` |
| `Research.SearchResources` | backend/app/routers/research.py:10-29 | a provider error is passed on; otherwise success holds iff each of the first `min(5, n)` hits has all three keys, and then the result is those hits in order with `url` and `title` copied, `description` from `snippet`, and empty content; a failure names the first hit lacking a key |
| `Research.WithoutUrl` | backend/app/routers/research.py:85 | the filtered list is no longer than the input, and every entry is from the input with a different URL |
| `Research.DeleteResource` | backend/app/routers/research.py:79-88 | the resources become the filtered list; report, question and model are unchanged |
| `Research.WithoutUrlMembers` | backend/app/routers/research.py:85 | a resource survives iff it was in the list and its URL differs, so every duplicate of the URL goes |
| `Research.WithoutUrlAppend` | backend/app/routers/research.py:85 | the filter distributes over concatenation, so order is kept |
| `Research.WithoutAbsentUrl` | backend/app/routers/research.py:85 | deleting a URL no resource has leaves the list unchanged |
| `Research.WithoutUrlIdempotent` | backend/app/routers/research.py:85 | deleting the same URL twice equals deleting it once |
| `Research.WithoutUrlKeepsDistinct` | backend/app/routers/research.py:85 | deletion keeps a list free of duplicate URLs |
| `Research.Refreshed` | backend/app/routers/research.py:38-42 | a resource with content is untouched; an empty one gets its download; URL, title and description never change |
| `Research.CacheAfter` | backend/app/routers/research.py:38-42 | the download step only adds or overwrites cache entries, never removes one |
| `Research.CacheAfterLookup` | backend/app/routers/research.py:38-42 | after the download step, a URL carried by an empty resource holds its download; every other URL reads as before |
| `Research.Excerpt` | backend/app/routers/research.py:64 | empty content gives `No content`; otherwise a prefix of the content of at most 1000 characters followed by `...`; always at most 1003 characters |
| `Research.Excerpts` | backend/app/routers/research.py:61-65 | one excerpt per resource, in order, with its URL, its title and the excerpt of its content |
| `Research.DownloadMissing` | backend/app/routers/research.py:38-42 | every resource is refreshed in place, in order; the cache is updated accordingly; no other field changes |
| `Research.AnalyzeResources` | backend/app/routers/research.py:31-77 | resources are refreshed, keeping their number and order; an unknown model raises and leaves the report unchanged; otherwise the report becomes the model's answer to the excerpt prompt |

## Left out

- The language-model calls (`bind_tools(...).ainvoke`, `model.predict`), the system-prompt wording and the JSON serialisation of the hydrated resources. They are taken as parameters, and the prompt as a structured value. A failing model call is not modelled.
- The client constructors inside `get_model`. Only the name check is modelled.
- The LangGraph graph (nodes, edges, entry point, `MemorySaver`) and the runtime that applies a `Command`. `Agent.Apply` stands for applying an update.
- The `logs` field of the agent state. No core code reads or writes it.
- The HTTP fetch, its 10-second timeout, the status check and the HTML-to-text conversion. They become a `FetchOutcome` and an opaque `toText`; an exception raised by the conversion is a `FetchFailed` outcome, since the same handler turns it into the error marker.
- `Research.AnalyzeResources`: the network is a function from URL to outcome. So two downloads of one URL in the same call get the same answer.
- The search provider's client. Its reply is taken as the list that the route slices; the shape of the real client's reply is not part of this model.
- The tool call is read through its `name` and `args` fields. How the model library actually exposes them is not part of this model.
- The `HTTPException` wrapping (status 500 with the error text). The routes return the error value instead.
- `async`/`await` and concurrent sessions sharing the cache. Every step is sequential.
- Object identity. `Resource` objects that the routes mutate in place are values in a sequence that the route reassigns, so aliasing between them is not modelled.
- FastAPI wiring, CORS and the health check in `backend/app/main.py`.
