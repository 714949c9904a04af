/** The document-question workflow: six stages run in a fixed order over one
    state record. Uploaded files are only acknowledged, the document search
    fills the document context, the optional web search fills a web context
    that nothing reads afterwards, and finalising either reports that no
    context was found or writes a report from the document context alone.
    The search tools, the web search and the drafting agent are parameters. */
module RagWorkflow {
  import opened Wrappers
  import opened Seqs
  import opened Text
  import RA = ResearchAgent
  import RagTools
  import Drafting

  /** The `status` values the stages write. */
  datatype RagStatus =
    | Starting | RagStarted | NoDocuments | DocumentsProcessed | DocumentsSearched | NoDocumentsFound
    | WebSearchSkipped | WebSearchCompleted | NoWebResults | WebSearchError | ContextCombined
    | Completed | Failed
  {
    function Name(): string {
      match this
      case Starting => "starting"
      case RagStarted => "rag_started"
      case NoDocuments => "no_documents"
      case DocumentsProcessed => "documents_processed"
      case DocumentsSearched => "documents_searched"
      case NoDocumentsFound => "no_documents_found"
      case WebSearchSkipped => "web_search_skipped"
      case WebSearchCompleted => "web_search_completed"
      case NoWebResults => "no_web_results"
      case WebSearchError => "web_search_error"
      case ContextCombined => "context_combined"
      case Completed => "completed"
      case Failed => "error"
    }
  }

  /** The workflow state. `combinedContext` is absent until the combining
      stage has written it. */
  datatype RagState = RagState(
    query: string,
    report: string,
    status: RagStatus,
    errorMessage: string,
    iteration: int,
    maxIterations: int,
    uploadedFiles: seq<string>,
    topic: string,
    useWebSearch: bool,
    documentContext: string,
    webContext: string,
    combinedContext: Option<string>)

  /** No stage changes what the caller asked for. */
  predicate KeepsRequest(s: RagState, r: RagState) {
    && r.query == s.query && r.topic == s.topic && r.maxIterations == s.maxIterations
    && r.useWebSearch == s.useWebSearch && r.uploadedFiles == s.uploadedFiles
  }

  /** The calls the stages make into code outside the model. `search` is
      the `rag_search` tool called on the query, `context` the
      `get_document_context` tool called on that reply, `web` the
      `tavily_search` tool; each can raise, with a message. The context
      tool itself never answers with the empty string
      (`RagTools.DocumentContextNonEmpty`), but the reply is left general
      here. `agent` is the drafting agent, or the message its constructor
      raised. */
  datatype RagServices = RagServices(
    search: string -> Result<RagTools.SearchOutcome, string>,
    context: RagTools.SearchOutcome -> Result<string, string>,
    web: string -> Result<seq<RA.SearchHit>, string>,
    agent: Result<Drafting.Llm, string>)

  const SearchFailure: string := "Document search failed: "
  const WebFailure: string := "Web search failed: "
  const NoContextMessage: string := "No relevant context found for the query"
  const ErrorHeading: string := "# Error\n\n"

  /** The state `run` starts from; the research tree it also holds is not
      part of this model. */
  function InitialRag(query: string, topic: string, useWebSearch: bool, maxIterations: int): (s: RagState)
    ensures s.status == Starting && s.uploadedFiles == [] && s.combinedContext.None?
    ensures s.documentContext == "" && s.webContext == "" && s.report == ""
    ensures s.query == query && s.topic == topic && s.maxIterations == maxIterations && s.useWebSearch == useWebSearch
  {
    RagState(query, "", Starting, "", 0, maxIterations, [], topic, useWebSearch, "", "", None)
  }

  // ---------------------------------------------------------------------
  // start_rag and process_documents

  function StartRag(s: RagState): (r: RagState)
    ensures r.status == RagStarted && r.(status := s.status) == s
    ensures KeepsRequest(s, r)
  {
    s.(status := RagStarted)
  }

  /** Uploaded files are listed, not read: the stage only records whether
      there were any. */
  function ProcessDocuments(s: RagState): (r: RagState)
    ensures r.status == NoDocuments <==> s.uploadedFiles == []
    ensures r.status == DocumentsProcessed <==> s.uploadedFiles != []
    ensures r.(status := s.status) == s
    ensures KeepsRequest(s, r)
  {
    if s.uploadedFiles == [] then s.(status := NoDocuments) else s.(status := DocumentsProcessed)
  }

  // ---------------------------------------------------------------------
  // search_documents

  /** The number of entries of the Python value `rag_search` returns: the
      one-entry error list when no client could be obtained, a dictionary
      of three keys otherwise. The stage tests this value for truth. */
  function ReplySize(o: RagTools.SearchOutcome): (n: nat)
    ensures n > 0
  {
    match o
    case Unreachable => 1
    case Found(_, _, _) => 3
    case Failed(_, _) => 3
  }

  /** `_search_documents`. A raised search or context call is recorded as
      an error and leaves the document context as it was. Every reply of
      the search tool is a non-empty value, so the no-documents branch is
      never taken: a search that found nothing still hands its reply to
      the context tool. */
  function SearchDocuments(s: RagState, reply: Result<RagTools.SearchOutcome, string>,
                           context: RagTools.SearchOutcome -> Result<string, string>): (r: RagState)
    ensures r.status != NoDocumentsFound
    ensures KeepsRequest(s, r)
    ensures r.status == DocumentsSearched || r.status == Failed
    ensures reply.Err? ==> r == s.(errorMessage := SearchFailure + reply.error, status := Failed)
    ensures reply.Ok? && context(reply.value).Err? ==>
      r == s.(errorMessage := SearchFailure + context(reply.value).error, status := Failed)
    ensures r.status == DocumentsSearched <==> reply.Ok? && context(reply.value).Ok?
    ensures r.status == DocumentsSearched ==>
      r.documentContext == context(reply.value).value
      && r.(documentContext := s.documentContext, status := s.status) == s
  {
    match reply
    case Err(e) => s.(errorMessage := SearchFailure + e, status := Failed)
    case Ok(o) =>
      if ReplySize(o) == 0 then s.(documentContext := "", status := NoDocumentsFound)
      else
        match context(o)
        case Err(e) => s.(errorMessage := SearchFailure + e, status := Failed)
        case Ok(c) => s.(documentContext := c, status := DocumentsSearched)
  }

  // ---------------------------------------------------------------------
  // web_search

  const WebSourceTitle: string := "Web Source"
  const WebLimit: nat := 3

  /** The block one web result adds to the web context. */
  function WebEntry(h: RA.SearchHit): string {
    "\n\n[" + h.title.GetOr(WebSourceTitle) + "]\n" + h.content.GetOr("")
  }

  function WebEntries(hits: seq<RA.SearchHit>): (es: seq<string>)
    ensures |es| == |hits|
    ensures forall k :: 0 <= k < |hits| ==> es[k] == WebEntry(hits[k])
  {
    seq(|hits|, i requires 0 <= i < |hits| => WebEntry(hits[i]))
  }

  /** The web context: the blocks of the first three results, in order. */
  function WebContext(hits: seq<RA.SearchHit>): string {
    Flatten(WebEntries(Prefix(hits, WebLimit)))
  }

  /** `_web_search`. A disabled search does not call the tool; a raised
      call clears the web context and records the error. The document
      context is never touched. */
  function WebSearch(s: RagState, reply: Result<seq<RA.SearchHit>, string>): (r: RagState)
    ensures r.documentContext == s.documentContext && r.combinedContext == s.combinedContext
    ensures KeepsRequest(s, r)
    ensures !s.useWebSearch ==> r == s.(webContext := "", status := WebSearchSkipped)
    ensures s.useWebSearch && reply.Err? ==>
      r == s.(errorMessage := WebFailure + reply.error, webContext := "", status := WebSearchError)
    ensures s.useWebSearch && reply == Ok([]) ==> r == s.(webContext := "", status := NoWebResults)
    ensures s.useWebSearch && reply.Ok? && reply.value != [] ==>
      r == s.(webContext := WebContext(reply.value), status := WebSearchCompleted)
  {
    if !s.useWebSearch then s.(webContext := "", status := WebSearchSkipped)
    else
      match reply
      case Err(e) => s.(errorMessage := WebFailure + e, webContext := "", status := WebSearchError)
      case Ok(hits) =>
        if hits != [] then s.(webContext := WebContext(hits), status := WebSearchCompleted)
        else s.(webContext := "", status := NoWebResults)
  }

  /** Each of the first three results contributes its block, with the
      default title when it has none. */
  lemma WebContextHolds(hits: seq<RA.SearchHit>, k: nat)
    requires k < |hits| && k < WebLimit
    ensures Contains(WebContext(hits), WebEntry(hits[k]))
    ensures hits[k].title.None? ==> Contains(WebContext(hits), "\n\n[" + WebSourceTitle + "]\n" + hits[k].content.GetOr(""))
  {
    var es := WebEntries(Prefix(hits, WebLimit));
    assert es[k] == WebEntry(hits[k]);
    var off := FlattenAt(es, k);
    assert StartsWith(es[k], es[k]);
    ContainsSlice(Flatten(es), off, off + |es[k]|, es[k]);
  }

  /** Results after the third never reach the web context. */
  lemma WebContextFirstThree(hits: seq<RA.SearchHit>, more: seq<RA.SearchHit>)
    requires |hits| >= WebLimit
    ensures WebContext(hits + more) == WebContext(hits)
  {
    assert Prefix(hits + more, WebLimit) == Prefix(hits, WebLimit);
  }

  // ---------------------------------------------------------------------
  // combine_context and finalize

  /** `_combine_context`: the combined context is the document context;
      the web context is not read. */
  function CombineContext(s: RagState): (r: RagState)
    ensures r.combinedContext == Some(s.documentContext) && r.status == ContextCombined
    ensures r.(combinedContext := s.combinedContext, status := s.status) == s
    ensures KeepsRequest(s, r)
  {
    s.(combinedContext := Some(s.documentContext), status := ContextCombined)
  }

  /** The context `_finalize` reads: the combined one, else the document
      context. */
  function ContextOf(s: RagState): string {
    s.combinedContext.GetOr(s.documentContext)
  }

  /** Whatever the web stage wrote, the context after combining is the
      document context. */
  lemma CombineIgnoresWeb(s: RagState, web: string)
    ensures ContextOf(CombineContext(s.(webContext := web))) == s.documentContext
    ensures CombineContext(s.(webContext := web)) == CombineContext(s).(webContext := web)
  {
  }

  const MaxContext: nat := 2000
  const TruncationNote: string := "...\n[Content truncated for readability]"

  /** The context shown by the fallback report: at most 2000 characters,
      followed by a note when characters were cut. */
  function Truncate(context: string): (r: string)
    ensures |context| <= MaxContext ==> r == context
    ensures |context| > MaxContext ==>
      |r| == MaxContext + |TruncationNote| && r[..MaxContext] == context[..MaxContext]
      && r[MaxContext..] == TruncationNote
  {
    if |context| > MaxContext then context[..MaxContext] + TruncationNote else context
  }

  /** The truncated context always starts with the context's first 2000
      characters and never exceeds 2000 characters plus the note. */
  lemma TruncateKeepsPrefix(context: string)
    ensures StartsWith(Truncate(context), Prefix(context, MaxContext))
    ensures |Truncate(context)| <= MaxContext + |TruncationNote|
  {
  }

  const PromptLead: string :=
    "\n            Please analyze the following medical document content "
    + "and provide a structured answer to this question: \""
  const PromptRequirements: string :=
    "\"\n\n            Requirements:\n"
    + "            - Extract specific, relevant information from the provided context\n"
    + "            - Organize the response in a clear, structured format with bullet points or numbered lists\n"
    + "            - Focus on evidence-based information from the documents\n"
    + "            - Highlight key facts and recommendations\n"
    + "            - Provide actionable insights where applicable\n\n"
    + "            Document Context:\n            "
  const PromptClose: string :=
    "\n\n            Please provide a comprehensive, well-structured analysis "
    + "that directly answers the question.\n            "

  /** The prompt sent to the drafting agent. */
  function AnalysisPrompt(query: string, context: string): string {
    PromptLead + query + PromptRequirements + context + PromptClose
  }

  /** The prompt quotes the query and carries the whole context. */
  lemma PromptHolds(query: string, context: string)
    ensures Contains(AnalysisPrompt(query, context), query)
    ensures Contains(AnalysisPrompt(query, context), context)
  {
    InnerParts(PromptLead, query, PromptRequirements, context, PromptClose);
  }

  const ReportHead: string := "# \U{1F3E5} **RAG Analysis Report**\n\n## \U{1F4DD} **Query:** "
  const AnalysisHeading: string := "\n\n## \U{1F50D} **AI Analysis:**\n"
  const AiSources: string :=
    "\n\n## \U{1F4DA} **Sources:**\n"
    + "- Heart Disease Documents (healthyheart.pdf, Heart Disease-Full Text.pdf)\n"
    + "- Analysis generated using OpenAI GPT\n\n---\n"
    + "*Report generated by Deep Research AI Agent with AI Analysis*\n"
  const RetrievedHeading: string := "\n\n## \U{1F50D} **Retrieved Information:**\n"
  const FallbackSources: string :=
    "\n\n## \U{1F4DA} **Sources:**\n"
    + "- Heart Disease Documents from uploaded PDFs\n"
    + "- Retrieved via vector search\n\n"
    + "## ⚠️ **Note:**\n"
    + "This is a basic text retrieval. For intelligent AI analysis, please configure OpenAI API key.\n\n---\n"
    + "*Report generated by Deep Research AI Agent*\n"

  /** The report around the agent's analysis. */
  function AiReport(query: string, analysis: string): string {
    ReportHead + query + AnalysisHeading + analysis + AiSources
  }

  /** `_create_fallback_report`: the report around the truncated context. */
  function FallbackRagReport(query: string, context: string): string {
    ReportHead + query + RetrievedHeading + Truncate(context) + FallbackSources
  }

  /** `_create_report`. `draft_report` catches its own errors, so only a
      failing agent constructor leads to the fallback report. */
  function CreateRagReport(context: string, query: string, agent: Result<Drafting.Llm, string>): (report: string)
    ensures StartsWith(report, ReportHead + query)
    ensures agent.Err? ==> Contains(report, Truncate(context))
    ensures agent.Ok? ==> Contains(report, Drafting.DraftReport(agent.value, AnalysisPrompt(query, context)))
  {
    match agent
    case Err(_) =>
      Framed(ReportHead + query, RetrievedHeading, Truncate(context), FallbackSources);
      FallbackRagReport(query, context)
    case Ok(llm) =>
      var analysis := Drafting.DraftReport(llm, AnalysisPrompt(query, context));
      Framed(ReportHead + query, AnalysisHeading, analysis, AiSources);
      AiReport(query, analysis)
  }

  /** With the local stand-in model the analysis is its canned answer to
      the prompt, and a context of at most 2000 characters appears whole in
      the fallback report. */
  lemma ReportWithStandIn(context: string, query: string)
    ensures Contains(CreateRagReport(context, query, Ok(Drafting.Mock)),
                     Drafting.MockGenerate(Drafting.Plain(AnalysisPrompt(query, context))))
    ensures |context| <= MaxContext ==> Contains(CreateRagReport(context, query, Err("")), context)
  {
  }

  /** `_finalize`. */
  function Finalize(s: RagState, agent: Result<Drafting.Llm, string>): (r: RagState)
    ensures r.status == Failed <==> ContextOf(s) == ""
    ensures r.status == Completed <==> ContextOf(s) != ""
    ensures ContextOf(s) == "" ==>
      r == s.(report := ErrorHeading + NoContextMessage, status := Failed, errorMessage := NoContextMessage)
    ensures ContextOf(s) != "" ==>
      r.report == CreateRagReport(ContextOf(s), s.query, agent) && r.(report := s.report, status := s.status) == s
    ensures KeepsRequest(s, r)
  {
    var context := ContextOf(s);
    if context == [] then
      s.(report := ErrorHeading + NoContextMessage, status := Failed, errorMessage := NoContextMessage)
    else
      s.(report := CreateRagReport(context, s.query, agent), status := Completed)
  }

  // ---------------------------------------------------------------------
  // run

  /** The states after each stage, in graph order: start_rag,
      process_documents, search_documents, web_search, combine_context,
      finalize. */
  function Stages(query: string, topic: string, useWebSearch: bool, maxIterations: int, svc: RagServices): (ss: seq<RagState>)
    ensures |ss| == 6
  {
    var s1 := StartRag(InitialRag(query, topic, useWebSearch, maxIterations));
    var s2 := ProcessDocuments(s1);
    var s3 := SearchDocuments(s2, svc.search(query), svc.context);
    var s4 := WebSearch(s3, svc.web(query));
    var s5 := CombineContext(s4);
    [s1, s2, s3, s4, s5, Finalize(s5, svc.agent)]
  }

  /** `run(query, topic, use_web_search, max_iterations)`: the final state. */
  function RunRag(query: string, topic: string, useWebSearch: bool, maxIterations: int, svc: RagServices): (r: RagState)
    ensures r.query == query && r.topic == topic && r.maxIterations == maxIterations
    ensures r.status == Completed || r.status == Failed
  {
    Stages(query, topic, useWebSearch, maxIterations, svc)[5]
  }

  /** The statuses the stages write, in order: the run never has uploaded
      files, never reports that documents were missing, and ends completed
      or failed. */
  lemma StageStatuses(query: string, topic: string, useWebSearch: bool, maxIterations: int, svc: RagServices)
    ensures var ss := Stages(query, topic, useWebSearch, maxIterations, svc);
      && ss[0].status == RagStarted
      && ss[1].status == NoDocuments
      && (ss[2].status == DocumentsSearched || ss[2].status == Failed)
      && (useWebSearch <==> ss[3].status != WebSearchSkipped)
      && ss[4].status == ContextCombined
      && (ss[5].status == Completed || ss[5].status == Failed)
  {
  }

  /** The document context the search stage of a run produces: the
      context tool's reply when both tool calls succeed, empty otherwise. */
  function SearchedContext(query: string, svc: RagServices): string {
    match svc.search(query)
    case Err(_) => ""
    case Ok(o) =>
      match svc.context(o)
      case Ok(c) => c
      case Err(_) => ""
  }

  /** A run completes exactly when the document search yields a non-empty
      context, and then reports on that context; otherwise its report is
      the no-context error. */
  lemma RunOutcome(query: string, topic: string, useWebSearch: bool, maxIterations: int, svc: RagServices)
    ensures var r := RunRag(query, topic, useWebSearch, maxIterations, svc);
      var c := SearchedContext(query, svc);
      && (r.status == Completed <==> c != "")
      && (c != "" ==> r.report == CreateRagReport(c, query, svc.agent))
      && (c == "" ==> r.report == ErrorHeading + NoContextMessage && r.errorMessage == NoContextMessage)
  {
    var ss := Stages(query, topic, useWebSearch, maxIterations, svc);
    assert ss[1].documentContext == "";
    SearchStage(ss[1], query, svc);
    assert ContextOf(ss[4]) == SearchedContext(query, svc);
  }

  /** Searching from an empty document context leaves the context the
      tools produced. */
  lemma SearchStage(s: RagState, query: string, svc: RagServices)
    requires s.documentContext == ""
    ensures SearchDocuments(s, svc.search(query), svc.context).documentContext == SearchedContext(query, svc)
  {
  }

  /** When the context tool, like `get_document_context`, never answers
      with the empty string, a run completes exactly when both tool calls
      of the search stage return, and fails with the no-context report
      exactly when one of them raises. */
  lemma RunCompletesWhenToolsReturn(query: string, topic: string, useWebSearch: bool, maxIterations: int, svc: RagServices)
    requires forall o :: svc.context(o).Ok? ==> svc.context(o).value != ""
    ensures var r := RunRag(query, topic, useWebSearch, maxIterations, svc);
      r.status == Completed <==> svc.search(query).Ok? && svc.context(svc.search(query).value).Ok?
  {
    RunOutcome(query, topic, useWebSearch, maxIterations, svc);
  }

  /** Turning the web search on or off changes neither the report nor the
      final status. */
  lemma RunIgnoresWebSearch(query: string, topic: string, maxIterations: int, svc: RagServices)
    ensures RunRag(query, topic, true, maxIterations, svc).report == RunRag(query, topic, false, maxIterations, svc).report
    ensures RunRag(query, topic, true, maxIterations, svc).status == RunRag(query, topic, false, maxIterations, svc).status
  {
    RunOutcome(query, topic, true, maxIterations, svc);
    RunOutcome(query, topic, false, maxIterations, svc);
  }
}
