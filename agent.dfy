/** The conversation state machine: `chat_node` with its hydration loop and its
    dispatch on the model's first tool call, and the two pass-through nodes. */
module Agent {
  import opened Wrappers
  import opened Resources
  import Web
  import Models

  /** A tool invocation in the model's reply: the tool's name and its arguments. */
  datatype ToolCall = ToolCall(name: string, args: map<string, string>)

  /** The model's reply (an `AIMessage`): its text and its tool calls, in order. */
  datatype Response = Response(content: string, toolCalls: seq<ToolCall>)

  datatype Message = Human(text: string) | Ai(response: Response)

  datatype AgentState = AgentState(
    messages: seq<Message>,
    researchQuestion: string,
    report: string,
    resources: seq<Resource>,
    model: string)

  /** The nodes a `Command` can go to. */
  datatype Node = ChatNode | SearchNode | DeleteNode | End

  /** The fields a `Command` overwrites; `None` leaves the field as it was. */
  datatype Update = Update(messages: seq<Message>, report: Option<string>, researchQuestion: Option<string>)

  datatype Command = Command(goto: Node, update: Update)

  const SearchTool: string := "Search"
  const WriteReportTool: string := "WriteReport"
  const WriteResearchQuestionTool: string := "WriteResearchQuestion"
  const DeleteResourcesTool: string := "DeleteResources"

  /** The cached value that excludes a resource from the hydrated view. */
  const ErrorSentinel: string := "ERROR"

  /** The state after the graph runtime applies `u`: every field `u` carries
      is overwritten, every other field is kept. */
  function Apply(s: AgentState, u: Update): (r: AgentState)
    ensures r.messages == u.messages
    ensures r.resources == s.resources && r.model == s.model
    ensures u.report.None? ==> r.report == s.report
    ensures u.report.Some? ==> r.report == u.report.value
    ensures u.researchQuestion.None? ==> r.researchQuestion == s.researchQuestion
    ensures u.researchQuestion.Some? ==> r.researchQuestion == u.researchQuestion.value
  {
    s.(messages := u.messages,
       report := u.report.GetOr(s.report),
       researchQuestion := u.researchQuestion.GetOr(s.researchQuestion))
  }

  // ---------------------------------------------------------------------------
  // Hydration

  /** The resources shown to the model: those whose cached value is not the
      sentinel, in order, each with its `content` set to the cached value. */
  function Hydrated(entries: map<string, string>, rs: seq<Resource>): (h: seq<Resource>)
    ensures |h| <= |rs|
    ensures forall x :: x in h ==> x.content == Web.Lookup(entries, x.url) && x.content != ErrorSentinel
    decreases |rs|
  {
    if rs == [] then []
    else
      var last := rs[|rs| - 1];
      var c := Web.Lookup(entries, last.url);
      Hydrated(entries, rs[..|rs| - 1]) + (if c != ErrorSentinel then [last.(content := c)] else [])
  }

  /** The hydration loop of `chat_node`: reads the cache, changes nothing. */
  method Hydrate(cache: Web.ResourceCache, resources: seq<Resource>) returns (hydrated: seq<Resource>)
    ensures hydrated == Hydrated(cache.entries, resources)
  {
    hydrated := [];
    var i := 0;
    while i < |resources|
      invariant 0 <= i <= |resources|
      invariant hydrated == Hydrated(cache.entries, resources[..i])
    {
      var content := cache.Get(resources[i].url);
      if content != ErrorSentinel {
        hydrated := hydrated + [resources[i].(content := content)];
      }
      assert resources[..i + 1][..i] == resources[..i];
      i := i + 1;
    }
    assert resources[..i] == resources;
  }

  /** Hydration distributes over concatenation: the view of a list is the view
      of its first part followed by the view of the rest, so order is kept. */
  lemma {:induction false} HydratedAppend(entries: map<string, string>, a: seq<Resource>, b: seq<Resource>)
    ensures Hydrated(entries, a + b) == Hydrated(entries, a) + Hydrated(entries, b)
    decreases |b|
  {
    if b == [] {
      assert a + b == a;
    } else {
      var b' := b[..|b| - 1];
      assert (a + b)[..|a + b| - 1] == a + b';
      assert (a + b)[|a + b| - 1] == b[|b| - 1];
      HydratedAppend(entries, a, b');
    }
  }

  /** A resource is in the hydrated view exactly when its cached value is not
      the sentinel; it appears with that cached value as its content. */
  lemma {:induction false} HydratedMembers(entries: map<string, string>, rs: seq<Resource>, x: Resource)
    ensures x in Hydrated(entries, rs) <==>
      exists i :: 0 <= i < |rs| && Web.Lookup(entries, rs[i].url) != ErrorSentinel
                  && x == rs[i].(content := Web.Lookup(entries, rs[i].url))
    decreases |rs|
  {
    if rs != [] {
      var n := |rs| - 1;
      var init := rs[..n];
      HydratedMembers(entries, init, x);
      if x in Hydrated(entries, rs) && x !in Hydrated(entries, init) {
        assert Web.Lookup(entries, rs[n].url) != ErrorSentinel
               && x == rs[n].(content := Web.Lookup(entries, rs[n].url));
      }
      if exists i :: 0 <= i < |rs| && Web.Lookup(entries, rs[i].url) != ErrorSentinel
                     && x == rs[i].(content := Web.Lookup(entries, rs[i].url)) {
        var i :| 0 <= i < |rs| && Web.Lookup(entries, rs[i].url) != ErrorSentinel
                 && x == rs[i].(content := Web.Lookup(entries, rs[i].url));
        if i < n {
          assert init[i] == rs[i];
        }
      }
    }
  }

  /** When no cached value is the sentinel, nothing is dropped: the view is the
      list itself with each content replaced by the cached value. */
  lemma {:induction false} HydratedKeepsAll(entries: map<string, string>, rs: seq<Resource>)
    requires forall i :: 0 <= i < |rs| ==> Web.Lookup(entries, rs[i].url) != ErrorSentinel
    ensures |Hydrated(entries, rs)| == |rs|
    ensures forall i :: 0 <= i < |rs| ==>
      Hydrated(entries, rs)[i] == rs[i].(content := Web.Lookup(entries, rs[i].url))
    decreases |rs|
  {
    if rs != [] {
      var n := |rs| - 1;
      var init := rs[..n];
      assert forall i :: 0 <= i < |init| ==> init[i] == rs[i];
      HydratedKeepsAll(entries, init);
    }
  }

  /** A resource the cache has never seen stays in the view, with empty content. */
  lemma UncachedResourceIsKept(entries: map<string, string>, rs: seq<Resource>, i: nat)
    requires i < |rs| && rs[i].url !in entries
    ensures rs[i].(content := "") in Hydrated(entries, rs)
  {
    HydratedMembers(entries, rs, rs[i].(content := ""));
  }

  /** A resource whose download failed stays in the view, with the error marker
      as its content: the marker never equals the sentinel. */
  lemma FailedDownloadIsKept(entries: map<string, string>, rs: seq<Resource>, i: nat,
                             cause: string, toText: string -> string)
    requires i < |rs| && rs[i].url in entries
    requires entries[rs[i].url] == Web.Downloaded(Web.FetchFailed(cause), toText)
    ensures rs[i].(content := entries[rs[i].url]) in Hydrated(entries, rs)
  {
    Web.FailureMarkerIsNotSentinel(cause, toText);
    HydratedMembers(entries, rs, rs[i].(content := entries[rs[i].url]));
  }

  // ---------------------------------------------------------------------------
  // Dispatch on the model's reply

  /** What the model is given: the research question, the report and the
      hydrated resources (embedded in the system prompt), then the history. */
  datatype ChatPrompt = ChatPrompt(
    researchQuestion: string, report: string, resources: seq<Resource>, history: seq<Message>)

  /** The `Command` `chat_node` returns for the model's reply `response`. */
  function Dispatch(s: AgentState, response: Response): (c: Command)
    ensures c.update.messages == s.messages + [Ai(response)]
  {
    var messages := s.messages + [Ai(response)];
    if |response.toolCalls| == 0 then Command(End, Update(messages, None, None))
    else
      var call := response.toolCalls[0];
      if call.name == SearchTool then Command(SearchNode, Update(messages, None, None))
      else if call.name == DeleteResourcesTool then Command(DeleteNode, Update(messages, None, None))
      else if call.name == WriteReportTool then
        Command(ChatNode, Update(messages, Some(Arg(call, "report")), None))
      else if call.name == WriteResearchQuestionTool then
        Command(ChatNode, Update(messages, None, Some(Arg(call, "research_question"))))
      else Command(End, Update(messages, None, None))
  }

  /** A tool-call argument, `""` when the model left it out. */
  function Arg(call: ToolCall, key: string): (v: string)
    ensures key in call.args ==> v == call.args[key]
    ensures key !in call.args ==> v == ""
  {
    if key in call.args then call.args[key] else ""
  }

  /** `chat_node`: hydrate, select the back end, ask the model, dispatch on its
      reply. `invoke` stands for the model call; an unknown model name raises
      before the model is asked. */
  method ChatNodeStep(cache: Web.ResourceCache, s: AgentState,
                      invoke: (Models.Backend, ChatPrompt) -> Response)
    returns (r: Result<Command, string>)
    ensures Models.GetModel(s.model).Err? ==> r == Err(Models.GetModel(s.model).error)
    ensures Models.GetModel(s.model).Ok? ==>
      r == Ok(Dispatch(s, invoke(Models.GetModel(s.model).value,
                                 ChatPrompt(s.researchQuestion, s.report,
                                            Hydrated(cache.entries, s.resources), s.messages))))
  {
    var resources := Hydrate(cache, s.resources);
    var backend := Models.GetModel(s.model);
    if backend.Err? {
      return Err(backend.error);
    }
    var response := invoke(backend.value, ChatPrompt(s.researchQuestion, s.report, resources, s.messages));
    r := Ok(Dispatch(s, response));
  }

  /** `search_node` as written: returns the state it is given. */
  function SearchNodeStep(s: AgentState): (r: AgentState)
    ensures r == s
  {
    s
  }

  /** `delete_node` as written: returns the state it is given. */
  function DeleteNodeStep(s: AgentState): (r: AgentState)
    ensures r == s
  {
    s
  }

  // ---------------------------------------------------------------------------
  // Properties of the transition

  /** True when the reply's first tool call names one of the four tools. */
  predicate Actionable(response: Response) {
    |response.toolCalls| > 0 &&
    response.toolCalls[0].name in {SearchTool, DeleteResourcesTool, WriteReportTool, WriteResearchQuestionTool}
  }

  /** Where the transition goes, stated per target node, in both directions. */
  lemma DispatchTarget(s: AgentState, response: Response)
    ensures Dispatch(s, response).goto == End <==> !Actionable(response)
    ensures Dispatch(s, response).goto == SearchNode <==>
      |response.toolCalls| > 0 && response.toolCalls[0].name == SearchTool
    ensures Dispatch(s, response).goto == DeleteNode <==>
      |response.toolCalls| > 0 && response.toolCalls[0].name == DeleteResourcesTool
    ensures Dispatch(s, response).goto == ChatNode <==>
      |response.toolCalls| > 0 &&
      response.toolCalls[0].name in {WriteReportTool, WriteResearchQuestionTool}
  {
  }

  /** On every path the reply is appended to the history, which grows by
      exactly one, and the resources and the model are left alone. */
  lemma DispatchAppendsReply(s: AgentState, response: Response)
    ensures Apply(s, Dispatch(s, response).update).messages == s.messages + [Ai(response)]
    ensures |Apply(s, Dispatch(s, response).update).messages| == |s.messages| + 1
    ensures Apply(s, Dispatch(s, response).update).resources == s.resources
    ensures Apply(s, Dispatch(s, response).update).model == s.model
  {
  }

  /** Without an actionable first tool call the conversation ends and only the
      history changes. */
  lemma NoActionEnds(s: AgentState, response: Response)
    requires !Actionable(response)
    ensures Dispatch(s, response).goto == End
    ensures Apply(s, Dispatch(s, response).update) == s.(messages := s.messages + [Ai(response)])
  {
  }

  /** `Search` and `DeleteResources` hand over to their node and change only the
      history. */
  lemma SearchOrDeleteOnlyAppends(s: AgentState, response: Response)
    requires |response.toolCalls| > 0
    requires response.toolCalls[0].name in {SearchTool, DeleteResourcesTool}
    ensures Dispatch(s, response).goto ==
      if response.toolCalls[0].name == SearchTool then SearchNode else DeleteNode
    ensures Apply(s, Dispatch(s, response).update) == s.(messages := s.messages + [Ai(response)])
  {
  }

  /** `WriteReport` loops back to the chat node with the report replaced by the
      call's `report` argument; the research question is untouched. */
  lemma WriteReportUpdatesReport(s: AgentState, response: Response)
    requires |response.toolCalls| > 0 && response.toolCalls[0].name == WriteReportTool
    ensures Dispatch(s, response).goto == ChatNode
    ensures Apply(s, Dispatch(s, response).update) ==
      s.(messages := s.messages + [Ai(response)], report := Arg(response.toolCalls[0], "report"))
  {
  }

  /** `WriteResearchQuestion` loops back to the chat node with the question
      replaced by the call's `research_question` argument; the report is untouched. */
  lemma WriteResearchQuestionUpdatesQuestion(s: AgentState, response: Response)
    requires |response.toolCalls| > 0 && response.toolCalls[0].name == WriteResearchQuestionTool
    ensures Dispatch(s, response).goto == ChatNode
    ensures Apply(s, Dispatch(s, response).update) ==
      s.(messages := s.messages + [Ai(response)],
         researchQuestion := Arg(response.toolCalls[0], "research_question"))
  {
  }

  /** Only the first tool call matters: two replies that agree on it (or both
      have none) go to the same node and produce the same state apart from the
      reply that is appended to the history. */
  lemma OnlyFirstToolCallMatters(s: AgentState, r1: Response, r2: Response)
    requires |r1.toolCalls| == 0 <==> |r2.toolCalls| == 0
    requires |r1.toolCalls| > 0 ==> r1.toolCalls[0] == r2.toolCalls[0]
    ensures Dispatch(s, r1).goto == Dispatch(s, r2).goto
    ensures Apply(s, Dispatch(s, r1).update).(messages := s.messages) ==
            Apply(s, Dispatch(s, r2).update).(messages := s.messages)
  {
  }

  /** A `Search` round (chat node, then the search node) adds no resource: the
      pass-through node performs no search. */
  lemma SearchRoundAddsNothing(s: AgentState, response: Response)
    requires |response.toolCalls| > 0 && response.toolCalls[0].name == SearchTool
    ensures Dispatch(s, response).goto == SearchNode
    ensures SearchNodeStep(Apply(s, Dispatch(s, response).update)).resources == s.resources
  {
  }

  /** A `DeleteResources` round removes nothing: the pass-through node leaves the
      resources as they were, whatever URLs the call names. */
  lemma DeleteRoundRemovesNothing(s: AgentState, response: Response)
    requires |response.toolCalls| > 0 && response.toolCalls[0].name == DeleteResourcesTool
    ensures Dispatch(s, response).goto == DeleteNode
    ensures DeleteNodeStep(Apply(s, Dispatch(s, response).update)).resources == s.resources
  {
  }
}
