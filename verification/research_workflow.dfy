/** The research workflow: five stages run in a fixed order over one state
    record. The research stage builds a tree with one QUERY, one RESULT and
    at most eight INSIGHT nodes; the quality stage scores it; the report
    stage writes the markdown report; finalising always marks the run
    completed. Web search, insight extraction and summarising are
    parameters. */
module ResearchWorkflow {
  import opened Wrappers
  import opened Seqs
  import opened Text
  import RT = ResearchTree
  import RA = ResearchAgent
  import Drafting

  type Tree = RT.Tree
  type Mint = nat -> RT.NodeId

  /** The `status` values the stages write. */
  datatype Status = Initialized | Started | ResearchCompleted | QualityAnalyzed | ReportCreated | Completed | Failed {
    function Name(): string {
      match this
      case Initialized => "initialized"
      case Started => "started"
      case ResearchCompleted => "research_completed"
      case QualityAnalyzed => "quality_analyzed"
      case ReportCreated => "report_created"
      case Completed => "completed"
      case Failed => "error"
    }
  }

  /** The `quality_analysis` record of the quality stage. */
  datatype QualityAnalysis = QualityAnalysis(
    score: nat,
    insightsCount: nat,
    resultsCount: nat,
    contentLength: nat,
    totalNodes: nat,
    feedback: seq<string>)

  /** The workflow state. `quality` is absent until the quality stage has
      written it. */
  datatype State = State(
    query: string,
    tree: Option<Tree>,
    report: string,
    status: Status,
    errorMessage: string,
    iteration: int,
    maxIterations: int,
    quality: Option<QualityAnalysis>)

  /** The calls the stages make into code outside the model; each can raise,
      with a message. */
  datatype Services = Services(
    search: string -> Result<seq<RA.SearchHit>, string>,
    extract: (string, string) -> RA.InsightsReply,
    summarize: Drafting.Summarizer)

  /** Python's message for a method looked up on `None`. */
  const NoTreeError: string := "'NoneType' object has no attribute 'get_insights'"

  // ---------------------------------------------------------------------
  // start_research

  function StartResearch(s: State): (r: State)
    ensures r.status == Started && r.iteration == 0
    ensures r.(status := s.status, iteration := s.iteration) == s
  {
    s.(status := Started, iteration := 0)
  }

  // ---------------------------------------------------------------------
  // conduct_research

  /** The search reply, or the single error entry a raised search becomes. */
  function Hits(svc: Services, query: string): (hits: seq<RA.SearchHit>)
    ensures svc.search(query).Err? ==> |hits| == 1 && hits[0].failed
  {
    match svc.search(query)
    case Ok(hits) => hits
    case Err(_) => [RA.SearchHit(None, None, None, true)]
  }

  function HitHeading(h: RA.SearchHit, i: nat): string {
    NatToString(i) + ". " + h.title.GetOr("No title") + "\n"
  }

  /** The block written for the `i`-th hit; error entries are skipped but
      still counted. */
  function HitEntry(h: RA.SearchHit, i: nat): string {
    if h.failed then ""
    else
      HitHeading(h, i)
      + ("   URL: " + h.url.GetOr("No URL") + "\n"
         + "   Content: " + Prefix(h.content.GetOr("No content"), 300) + "...\n\n")
  }

  /** One entry per hit, numbered from 1. */
  function HitList(hits: seq<RA.SearchHit>): (entries: seq<string>)
    ensures |entries| == |hits|
  {
    seq(|hits|, i requires 0 <= i < |hits| => HitEntry(hits[i], i + 1))
  }

  /** The RESULT content: the heading, then one entry per usable hit. */
  function ResultsText(query: string, hits: seq<RA.SearchHit>): string {
    "Research Results for: " + query + "\n\n" + Flatten(HitList(hits))
  }

  /** The hits that are not error entries. */
  function ValidCount(hits: seq<RA.SearchHit>): (n: nat)
    ensures n <= |hits|
  {
    if hits == [] then 0 else (if hits[0].failed then 0 else 1) + ValidCount(hits[1..])
  }

  /** The RESULT lists every hit that is not an error entry, numbered by its
      position in the reply. */
  lemma ResultsTextHolds(query: string, hits: seq<RA.SearchHit>, k: nat)
    requires k < |hits| && !hits[k].failed
    ensures Contains(ResultsText(query, hits), HitHeading(hits[k], k + 1))
  {
    var entries := HitList(hits);
    var x := HitHeading(hits[k], k + 1);
    HeadingInEntry(hits[k], k + 1);
    FlattenContains(entries, k, x);
    ContainsRight("Research Results for: " + query + "\n\n", Flatten(entries), x);
  }

  lemma HeadingInEntry(h: RA.SearchHit, i: nat)
    requires !h.failed
    ensures Contains(HitEntry(h, i), HitHeading(h, i))
  {
    var x := HitHeading(h, i);
    assert StartsWith(HitEntry(h, i), x) by { assert HitEntry(h, i)[..|x|] == x; }
  }

  /** A string inside one of the parts is inside their concatenation. */
  lemma FlattenContains(parts: seq<string>, k: nat, sub: string)
    requires k < |parts| && Contains(parts[k], sub)
    ensures Contains(Flatten(parts), sub)
  {
    var off := FlattenAt(parts, k);
    ContainsSlice(Flatten(parts), off, off + |parts[k]|, sub);
  }

  /** Error entries add nothing, so a failed search leaves only the
      heading. */
  lemma FailedHitsAddNothing(query: string, hits: seq<RA.SearchHit>)
    requires forall i :: 0 <= i < |hits| ==> hits[i].failed
    ensures ResultsText(query, hits) == "Research Results for: " + query + "\n\n"
  {
    var entries := HitList(hits);
    forall i | 0 <= i < |entries| ensures entries[i] == [] {
      assert entries[i] == HitEntry(hits[i], i + 1);
    }
    FlattenEmpty(entries);
  }

  /** A reply of error entries counts no result. */
  lemma {:induction false} NoneValid(hits: seq<RA.SearchHit>)
    requires forall i :: 0 <= i < |hits| ==> hits[i].failed
    ensures ValidCount(hits) == 0
    decreases |hits|
  {
    if hits != [] {
      assert hits[0].failed;
      NoneValid(hits[1..]);
    }
  }

  const ExtractFailure: string := "Failed to extract insights: "

  /** `insights[:8]` of the extractor's reply; a raised extractor gives
      the one failure line, and a dictionary reply cannot be sliced. */
  function Extracted(reply: RA.InsightsReply): (r: Result<seq<string>, string>)
    ensures r.Ok? <==> !reply.Keyed?
    ensures r.Err? ==> r.error == RA.DictSliced
    ensures reply.Listed? ==>
      && r.Ok?
      && |r.value| == (if |reply.insights| < 8 then |reply.insights| else 8)
      && r.value == reply.insights[..|r.value|]
    ensures reply.Raised? ==> r == Ok([ExtractFailure + reply.message])
    ensures r.Ok? ==> |r.value| <= 8
  {
    match reply
    case Listed(xs) => Ok(Prefix(xs, 8))
    case Raised(e) => Ok([ExtractFailure + e])
    case Keyed(_) => Err(RA.DictSliced)
  }

  /** What `insights[:8]` evidently means: the first eight insights of the
      reply, the dictionary's `insights` list included. It agrees with
      `Extracted` wherever that one succeeds. */
  function ExtractedIntended(reply: RA.InsightsReply): (r: seq<string>)
    ensures |r| <= 8
    ensures reply.Keyed? ==>
      && |r| == (if |reply.report.insights| < 8 then |reply.report.insights| else 8)
      && r == reply.report.insights[..|r|]
    ensures !reply.Keyed? ==> Extracted(reply) == Ok(r)
  {
    match reply
    case Keyed(report) => Prefix(report.insights, 8)
    case _ => Extracted(reply).value
  }

  function ResultMeta(valid: nat): RT.Metadata {
    map["agent" := RT.Str("research_workflow"), "iteration" := RT.Num(1), "results_count" := RT.Num(valid)]
  }

  const WorkflowInsightMeta: RT.Metadata := map["extracted_by" := RT.Str("research_workflow")]

  /** The research tree the stage builds for `query`: the root and QUERY
      node of `research`, the RESULT under the QUERY node, and the insights
      under the RESULT. */
  function Gathered(query: string, text: string, valid: nat, insights: seq<string>, mint: Mint, now: RT.Stamp): (t: Tree)
    requires RT.GoodMint(mint)
    ensures RT.Supplied(t, mint) && RT.Valid(t)
  {
    var t1 := RA.Opened(query, mint, now);
    RA.Recorded(t1, mint(1), RA.Attempt(Some((text, ResultMeta(valid))), insights, None), WorkflowInsightMeta, mint, now)
  }

  /** `_conduct_research`: a dictionary reply from the extractor ends the
      stage with an error before the tree reaches the state. */
  function ConductResearch(s: State, svc: Services, mint: Mint, now: RT.Stamp): (r: State)
    requires RT.GoodMint(mint)
    ensures r.query == s.query && r.maxIterations == s.maxIterations
    ensures var text := ResultsText(s.query, Hits(svc, s.query));
      && (r.status == Failed <==> svc.extract(text, s.query).Keyed?)
      && (r.status == Failed ==> r == s.(status := Failed, errorMessage := RA.DictSliced))
      && (r.status != Failed ==>
            && r.status == ResearchCompleted
            && r.tree.Some?
            && r == s.(tree := r.tree, status := ResearchCompleted, iteration := s.iteration + 1))
  {
    var hits := Hits(svc, s.query);
    var text := ResultsText(s.query, hits);
    match Extracted(svc.extract(text, s.query))
    case Err(e) => s.(status := Failed, errorMessage := e)
    case Ok(insights) =>
      var t := Gathered(s.query, text, ValidCount(hits), insights, mint, now);
      s.(tree := Some(t), status := ResearchCompleted, iteration := s.iteration + 1)
  }

  /** The gathered tree: the root "Research: {query}" with the QUERY node as
      its only child; the RESULT as the QUERY node's only child, holding the
      search text; the insights as the RESULT's children, in order. */
  lemma GatheredNodes(query: string, text: string, valid: nat, insights: seq<string>, mint: Mint, now: RT.Stamp)
    requires RT.GoodMint(mint)
    ensures var t := Gathered(query, text, valid, insights, mint, now);
      && t.rootId == mint(0)
      && t.nodes[mint(0)].content == "Research: " + query
      && t.nodes[mint(0)].childrenIds == [mint(1)]
      && t.nodes[mint(1)].kind == RT.Query
      && t.nodes[mint(1)].content == query
      && t.nodes[mint(1)].childrenIds == [mint(2)]
      && mint(2) in t.nodes
      && t.nodes[mint(2)].kind == RT.Result
      && t.nodes[mint(2)].content == text
      && t.nodes[mint(2)].parentId == Some(mint(1))
      && RA.AllHold(t, t.nodes[mint(2)].childrenIds, insights)
  {
    var t1 := RA.Opened(query, mint, now);
    var a := RA.Attempt(Some((text, ResultMeta(valid))), insights, None);
    var t := RA.Recorded(t1, mint(1), a, WorkflowInsightMeta, mint, now);
    assert Gathered(query, text, valid, insights, mint, now) == t;
    assert RT.NextId(t1, mint) == mint(2);
    RA.RecordedFrame(t1, mint(1), a, WorkflowInsightMeta, mint, now);
    RA.RecordedResult(t1, mint(1), a, WorkflowInsightMeta, mint, now);
    assert [] + [mint(2)] == [mint(2)];
  }

  /** The gathered tree holds one QUERY, one RESULT and one INSIGHT per
      insight, and its insights are exactly the given ones. */
  lemma GatheredKinds(query: string, text: string, valid: nat, insights: seq<string>, mint: Mint, now: RT.Stamp)
    requires RT.GoodMint(mint)
    ensures var t := Gathered(query, text, valid, insights, mint, now);
      && |RT.IdsOfKind(t.nodes, t.order, RT.Query)| == 1
      && |RT.IdsOfKind(t.nodes, t.order, RT.Result)| == 1
      && RT.ExtractInsights(t) == insights
  {
    var t1 := RA.Opened(query, mint, now);
    var a := RA.Attempt(Some((text, ResultMeta(valid))), insights, None);
    assert Gathered(query, text, valid, insights, mint, now) == RA.Recorded(t1, mint(1), a, WorkflowInsightMeta, mint, now);
    RA.OpenedKinds(query, mint, now, RT.Query);
    RA.OpenedKinds(query, mint, now, RT.Result);
    RA.OpenedInsights(query, mint, now);
    RA.RecordedOnFresh(t1, mint(1), a, WorkflowInsightMeta, mint, now);
  }

  /** After a completed research stage the tree holds at most eight
      insights, taken in order from the extractor's reply. */
  lemma ConductInsights(s: State, svc: Services, mint: Mint, now: RT.Stamp)
    requires RT.GoodMint(mint)
    requires ConductResearch(s, svc, mint, now).status == ResearchCompleted
    ensures var r := ConductResearch(s, svc, mint, now);
      var reply := svc.extract(ResultsText(s.query, Hits(svc, s.query)), s.query);
      && r.tree.Some?
      && RT.ExtractInsights(r.tree.value) == Extracted(reply).value
      && |RT.ExtractInsights(r.tree.value)| <= 8
  {
    var hits := Hits(svc, s.query);
    var text := ResultsText(s.query, hits);
    var ins := Extracted(svc.extract(text, s.query)).value;
    ConductTree(s, svc, mint, now);
    GatheredKinds(s.query, text, ValidCount(hits), ins, mint, now);
  }

  /** A completed research stage holds the tree gathered from the
      extractor's reply. */
  lemma ConductTree(s: State, svc: Services, mint: Mint, now: RT.Stamp)
    requires RT.GoodMint(mint)
    requires ConductResearch(s, svc, mint, now).status == ResearchCompleted
    ensures var hits := Hits(svc, s.query);
      var text := ResultsText(s.query, hits);
      && Extracted(svc.extract(text, s.query)).Ok?
      && ConductResearch(s, svc, mint, now).tree ==
           Some(Gathered(s.query, text, ValidCount(hits), Extracted(svc.extract(text, s.query)).value, mint, now))
  {
  }

  // ---------------------------------------------------------------------
  // analyze_quality

  /** A factor's points and the feedback line it adds, if any. */
  datatype Factor = Factor(points: nat, note: Option<string>)

  function InsightFactor(n: nat): Factor {
    if n >= 5 then Factor(30, Some("Good insight extraction"))
    else if n >= 3 then Factor(20, Some("Moderate insight extraction"))
    else Factor(0, Some("Limited insights extracted"))
  }

  function ResultFactor(n: nat): Factor {
    if n >= 1 then Factor(30, Some("Research results obtained"))
    else Factor(0, Some("No research results"))
  }

  function ContentFactor(n: nat): Factor {
    if n > 2000 then Factor(25, Some("Rich content gathered"))
    else if n > 1000 then Factor(15, Some("Adequate content volume"))
    else Factor(0, Some("Limited content gathered"))
  }

  /** The tree-size factor adds no feedback line when it scores nothing. */
  function StructureFactor(n: nat): Factor {
    if n > 8 then Factor(15, Some("Well-structured research tree"))
    else if n > 5 then Factor(10, Some("Basic research structure"))
    else Factor(0, None)
  }

  /** The quality score: the four factors' points. */
  function QualityScore(insights: nat, results: nat, content: nat, nodes: nat): (score: nat)
    ensures score <= 100
    ensures score >= 80 ==> insights >= 3 && results >= 1 && content > 1000
  {
    InsightFactor(insights).points + ResultFactor(results).points
      + ContentFactor(content).points + StructureFactor(nodes).points
  }

  /** The feedback lines, one per factor, in order; the tree-size line only
      when the tree has more than five nodes. */
  function Feedback(insights: nat, results: nat, content: nat, nodes: nat): (fb: seq<string>)
    ensures |fb| == (if nodes > 5 then 4 else 3)
    ensures fb[0] == InsightFactor(insights).note.value
    ensures fb[1] == ResultFactor(results).note.value
    ensures fb[2] == ContentFactor(content).note.value
  {
    var last := StructureFactor(nodes).note;
    [InsightFactor(insights).note.value, ResultFactor(results).note.value, ContentFactor(content).note.value]
      + (if last.Some? then [last.value] else [])
  }

  /** The points a feedback line stands for. */
  function NotePoints(note: string): nat {
    if note == "Good insight extraction" then 30
    else if note == "Moderate insight extraction" then 20
    else if note == "Research results obtained" then 30
    else if note == "Rich content gathered" then 25
    else if note == "Adequate content volume" then 15
    else if note == "Well-structured research tree" then 15
    else if note == "Basic research structure" then 10
    else 0
  }

  function FeedbackPoints(fb: seq<string>): nat {
    if fb == [] then 0 else NotePoints(fb[0]) + FeedbackPoints(fb[1..])
  }

  /** Each factor's feedback line stands for the points it scored. */
  lemma NotesStandForPoints(insights: nat, results: nat, content: nat, nodes: nat)
    ensures NotePoints(InsightFactor(insights).note.value) == InsightFactor(insights).points
    ensures NotePoints(ResultFactor(results).note.value) == ResultFactor(results).points
    ensures NotePoints(ContentFactor(content).note.value) == ContentFactor(content).points
    ensures StructureFactor(nodes).note.Some? ==>
              NotePoints(StructureFactor(nodes).note.value) == StructureFactor(nodes).points
  {
    var limited := "Limited insights extracted";
    assert limited[0] == 'L';
    var none := "No research results";
    assert none[0] == 'N';
    var thin := "Limited content gathered";
    assert thin[0] == 'L';
  }

  /** The feedback alone determines the score. */
  lemma ScoreFromFeedback(insights: nat, results: nat, content: nat, nodes: nat)
    ensures FeedbackPoints(Feedback(insights, results, content, nodes)) == QualityScore(insights, results, content, nodes)
  {
    NotesStandForPoints(insights, results, content, nodes);
    var fb := Feedback(insights, results, content, nodes);
    var tl := fb[3..];
    if nodes > 5 {
      assert tl[1..] == [];
    } else {
      assert tl == [];
    }
    assert FeedbackPoints(tl) == StructureFactor(nodes).points;
    assert fb[2..][1..] == tl && fb[2..][0] == fb[2];
    assert FeedbackPoints(fb[2..]) == NotePoints(fb[2]) + FeedbackPoints(tl);
    assert fb[1..][1..] == fb[2..] && fb[1..][0] == fb[1];
    assert FeedbackPoints(fb[1..]) == NotePoints(fb[1]) + FeedbackPoints(fb[2..]);
  }

  /** More insights, results, content or nodes never lower the score. */
  lemma ScoreMonotone(i: nat, r: nat, c: nat, n: nat, i': nat, r': nat, c': nat, n': nat)
    requires i <= i' && r <= r' && c <= c' && n <= n'
    ensures QualityScore(i, r, c, n) <= QualityScore(i', r', c', n')
  {
  }

  /** The `quality_analysis` of a tree. */
  function Assess(t: Tree): (qa: QualityAnalysis)
    ensures qa.insightsCount == |RT.GetInsights(t)| && qa.resultsCount == |RT.GetResults(t)|
    ensures qa.totalNodes == |t.nodes|
    ensures qa.contentLength == Drafting.ContentLength(t.nodes, t.order)
    ensures qa.score == QualityScore(qa.insightsCount, qa.resultsCount, qa.contentLength, qa.totalNodes)
    ensures qa.feedback == Feedback(qa.insightsCount, qa.resultsCount, qa.contentLength, qa.totalNodes)
  {
    var i := |RT.GetInsights(t)|;
    var r := |RT.GetResults(t)|;
    var c := Drafting.ContentLength(t.nodes, t.order);
    var n := |t.nodes|;
    QualityAnalysis(QualityScore(i, r, c, n), i, r, c, n, Feedback(i, r, c, n))
  }

  /** `_analyze_quality`: without a tree the first lookup raises. */
  function AnalyzeQuality(s: State): (r: State)
    ensures r.query == s.query && r.maxIterations == s.maxIterations
    ensures s.tree.None? ==> r == s.(status := Failed, errorMessage := NoTreeError)
    ensures s.tree.Some? ==> r == s.(status := QualityAnalyzed, quality := Some(Assess(s.tree.value)))
  {
    match s.tree
    case None => s.(status := Failed, errorMessage := NoTreeError)
    case Some(t) => s.(status := QualityAnalyzed, quality := Some(Assess(t)))
  }

  // ---------------------------------------------------------------------
  // create_report

  /** The score the report uses: the analysed one, else 50. */
  function ScoreOrDefault(quality: Option<QualityAnalysis>): nat {
    match quality
    case Some(qa) => qa.score
    case None => 50
  }

  /** The report type for a score. */
  function Tier(score: int): (k: Drafting.ReportKind)
    ensures k == Drafting.Comprehensive <==> score >= 80
    ensures k == Drafting.SummaryReport <==> 60 <= score < 80
    ensures k == Drafting.Executive <==> score < 60
  {
    if score >= 80 then Drafting.Comprehensive
    else if score >= 60 then Drafting.SummaryReport
    else Drafting.Executive
  }

  /** Without an analysis the report is an executive one. */
  lemma DefaultTierExecutive()
    ensures Tier(ScoreOrDefault(None)) == Drafting.Executive
  {
  }

  /** A summary line for a result: the summariser's text, or the message
      of its failure. */
  function SummaryText(reply: Result<string, string>): string {
    match reply
    case Ok(summary) => summary
    case Err(e) => "Summary unavailable: " + e
  }

  function SourceHeading(i: nat): string {
    "### Source " + NatToString(i)
  }

  /** The block for the `i`-th result; error results have none. */
  function SourceBlock(c: string, i: nat, summarize: Drafting.Summarizer): seq<string> {
    if Drafting.IsErrorResult(c) then [] else [SourceHeading(i), SummaryText(summarize(c)), ""]
  }

  /** The "### Source i" blocks for the results, numbered from 1 by position
      so that skipped error results still use up their number. */
  function SourceLines(cs: seq<string>, summarize: Drafting.Summarizer): seq<string> {
    Flatten(seq(|cs|, i requires 0 <= i < |cs| => SourceBlock(cs[i], i + 1, summarize)))
  }

  /** `lines` holds `heading` directly followed by `body`. */
  predicate Lists(lines: seq<string>, heading: string, body: string) {
    exists j :: 0 <= j < |lines| - 1 && lines[j] == heading && lines[j + 1] == body
  }

  /** Every result that is not an error has its heading, numbered by its
      position, followed by its summary line. */
  lemma SourceLinesHold(cs: seq<string>, summarize: Drafting.Summarizer, k: nat)
    requires k < |cs| && !Drafting.IsErrorResult(cs[k])
    ensures Lists(SourceLines(cs, summarize), SourceHeading(k + 1), SummaryText(summarize(cs[k])))
  {
    var blocks := seq(|cs|, i requires 0 <= i < |cs| => SourceBlock(cs[i], i + 1, summarize));
    var lines := SourceLines(cs, summarize);
    assert lines == Flatten(blocks);
    var off := FlattenAt(blocks, k);
    assert blocks[k] == [SourceHeading(k + 1), SummaryText(summarize(cs[k])), ""];
    assert lines[off] == blocks[k][0] && lines[off + 1] == blocks[k][1];
  }

  const NoInsightsLine: string := "No specific insights were extracted from the research."

  /** At most ten numbered insights, or the line saying there are none. */
  function InsightLines(xs: seq<string>): (lines: seq<string>)
    ensures |lines| == (if xs == [] then 1 else |Prefix(xs, 10)|)
  {
    Numbered(Prefix(xs, 10), 1) + (if xs == [] then [NoInsightsLine] else [])
  }

  const ReportTitle: string := "# Research Report: "
  const CoverageText: string := " research sources. The analysis provides comprehensive coverage of the topic "
  const ActionableLine: string := "with actionable findings and recommendations."

  const InvestigationText: string := "This research investigation into '"
  const QualityHeading: string := "## Research Quality Analysis"
  const GeneratedText: string := "*Report generated by Deep Research AI Agent with "
  const ProvidesText: string := "This research provides a "
  const VolumeText: string := "- **Content Volume:** "
  const DepthText: string := "- **Research Depth:** "
  const ExtractedText: string := "- **Insights Extracted:** "
  const SourcesText: string := "- **Research Sources:** "
  const OverallText: string := "- **Overall Score:** "

  /** The report's opening lines, up to the key findings. */
  function ReportHead(query: string, t: Tree, kind: Drafting.ReportKind, score: nat): (h: seq<string>)
    ensures |h| == 12 && h[0] == ReportTitle + query
  {
    [ ReportTitle + query,
      "",
      "**Report Type:** " + Drafting.Title(kind.Name()),
      "**Quality Score:** " + NatToString(score) + "/100",
      "",
      "## Executive Summary",
      InvestigationText + query + "' yielded "
        + NatToString(|RT.GetInsights(t)|) + " key insights ",
      "from " + NatToString(|RT.GetResults(t)|) + CoverageText,
      ActionableLine,
      "",
      "## Key Findings",
      "" ]
  }

  const SourcesHeading: seq<string> := ["", "## Research Results Summary", ""]

  /** The analysis the report shows: every field 0 when there is none. */
  function Shown(quality: Option<QualityAnalysis>): QualityAnalysis {
    quality.GetOr(QualityAnalysis(0, 0, 0, 0, 0, []))
  }

  /** The quality section: the analysis' figures, 0 where it has none. */
  function QualityLines(quality: Option<QualityAnalysis>): (lines: seq<string>)
    ensures |lines| == 7
  {
    [ QualityHeading,
      OverallText + NatToString(Shown(quality).score) + "/100",
      ExtractedText + NatToString(Shown(quality).insightsCount),
      SourcesText + NatToString(Shown(quality).resultsCount),
      VolumeText + NatToString(Shown(quality).contentLength) + " characters",
      DepthText + NatToString(Shown(quality).totalNodes) + " data points",
      "" ]
  }

  /** The fixed recommendations, the same in every report. */
  const Recommendations: seq<string> := [
    "## Recommendations",
    "Based on the research findings, consider the following next steps:",
    "1. Validate key findings with additional sources",
    "2. Explore specific aspects that require deeper investigation",
    "3. Monitor ongoing developments in this area",
    "4. Apply insights to relevant decision-making processes",
    "" ]

  const ClosingAdvice: string :=
    "The findings should be considered alongside other relevant information and expert judgment."

  /** The conclusion and the closing line. */
  function ConclusionLines(query: string, t: Tree, kind: Drafting.ReportKind): (lines: seq<string>)
    ensures |lines| == 5
  {
    [ "## Conclusion",
      ProvidesText + kind.Name() + " overview of '" + query + "'. ",
      ClosingAdvice,
      "",
      GeneratedText + NatToString(|t.nodes|) + " data points*" ]
  }

  /** The quality section, the fixed recommendations and the conclusion. */
  function ReportTail(query: string, t: Tree, kind: Drafting.ReportKind, quality: Option<QualityAnalysis>): (tl: seq<string>)
    ensures |tl| == 19
  {
    QualityLines(quality) + Recommendations + ConclusionLines(query, t, kind)
  }

  /** The report lines: head, the insight lines, the source blocks, then
      the tail. */
  function ReportLines(query: string, t: Tree, quality: Option<QualityAnalysis>, ins: seq<string>, sources: seq<string>): (lines: seq<string>)
    ensures |lines| == 12 + |ins| + 3 + |sources| + 19
    ensures lines[0] == ReportTitle + query
  {
    var score := ScoreOrDefault(quality);
    var kind := Tier(score);
    ReportHead(query, t, kind, score) + (ins + (SourcesHeading + (sources + ReportTail(query, t, kind, quality))))
  }

  /** The insight lines follow the twelve opening lines. */
  lemma ReportLinesInsight(query: string, t: Tree, quality: Option<QualityAnalysis>, ins: seq<string>, sources: seq<string>, k: nat)
    requires k < |ins|
    ensures 12 + k < |ReportLines(query, t, quality, ins, sources)|
    ensures ReportLines(query, t, quality, ins, sources)[12 + k] == ins[k]
  {
    var score := ScoreOrDefault(quality);
    var kind := Tier(score);
    Layout(ReportHead(query, t, kind, score), ins, SourcesHeading, sources, ReportTail(query, t, kind, quality));
  }

  /** The source blocks follow the insight lines and the section heading. */
  lemma ReportLinesSource(query: string, t: Tree, quality: Option<QualityAnalysis>, ins: seq<string>, sources: seq<string>, j: nat)
    requires j < |sources|
    ensures 15 + |ins| + j < |ReportLines(query, t, quality, ins, sources)|
    ensures ReportLines(query, t, quality, ins, sources)[15 + |ins| + j] == sources[j]
  {
    var score := ScoreOrDefault(quality);
    var kind := Tier(score);
    Layout(ReportHead(query, t, kind, score), ins, SourcesHeading, sources, ReportTail(query, t, kind, quality));
  }

  /** Positions in the five-part layout of the report lines. */
  lemma Layout(head: seq<string>, ins: seq<string>, mid: seq<string>, sources: seq<string>, tail: seq<string>)
    requires |head| == 12 && |mid| == 3
    ensures var lines := head + (ins + (mid + (sources + tail)));
      && |lines| == 12 + |ins| + 3 + |sources| + |tail|
      && lines[0] == head[0]
      && (forall k :: 0 <= k < |ins| ==> lines[12 + k] == ins[k])
      && (forall k :: 0 <= k < |sources| ==> lines[15 + |ins| + k] == sources[k])
  {
  }

  /** The blocks for the first three results. */
  function SourceBlocks(t: Tree, summarize: Drafting.Summarizer): seq<string> {
    SourceLines(RT.ContentsOf(Prefix(RT.GetResults(t), 3)), summarize)
  }

  /** The report text: its lines joined by newlines. */
  function ReportText(query: string, t: Tree, quality: Option<QualityAnalysis>, summarize: Drafting.Summarizer): (report: string)
    ensures StartsWith(report, ReportTitle + query)
  {
    var lines := ReportLines(query, t, quality, InsightLines(RT.ExtractInsights(t)), SourceBlocks(t, summarize));
    assert Join(lines, "\n") == lines[0] + "\n" + Join(lines[1..], "\n");
    Join(lines, "\n")
  }

  /** `_create_report`: without a tree the first lookup raises. */
  function CreateReport(s: State, summarize: Drafting.Summarizer): (r: State)
    ensures r.query == s.query && r.maxIterations == s.maxIterations
    ensures s.tree.None? ==> r == s.(status := Failed, errorMessage := NoTreeError)
    ensures s.tree.Some? ==> r.status == ReportCreated && r.(report := s.report, status := s.status) == s
    ensures s.tree.Some? ==> StartsWith(r.report, ReportTitle + s.query)
  {
    match s.tree
    case None => s.(status := Failed, errorMessage := NoTreeError)
    case Some(t) => s.(report := ReportText(s.query, t, s.quality, summarize), status := ReportCreated)
  }

  lemma CreateReportText(s: State, summarize: Drafting.Summarizer)
    requires s.tree.Some?
    ensures CreateReport(s, summarize).report == ReportText(s.query, s.tree.value, s.quality, summarize)
  {
  }

  /** The report lists the first ten insights, numbered from 1. */
  lemma ReportListsInsights(s: State, summarize: Drafting.Summarizer, k: nat)
    requires s.tree.Some? && k < 10 && k < |RT.ExtractInsights(s.tree.value)|
    ensures Contains(CreateReport(s, summarize).report,
                     NatToString(k + 1) + ". " + RT.ExtractInsights(s.tree.value)[k])
  {
    var t := s.tree.value;
    var xs := RT.ExtractInsights(t);
    var lines := ReportLines(s.query, t, s.quality, InsightLines(xs), SourceBlocks(t, summarize));
    InsightLineAt(xs, k);
    ReportLinesInsight(s.query, t, s.quality, InsightLines(xs), SourceBlocks(t, summarize), k);
    JoinContainsPart(lines, "\n", 12 + k);
    CreateReportText(s, summarize);
  }

  /** The `k`-th insight line, for one of the first ten insights. */
  lemma InsightLineAt(xs: seq<string>, k: nat)
    requires k < 10 && k < |xs|
    ensures k < |InsightLines(xs)| && InsightLines(xs)[k] == NatToString(k + 1) + ". " + xs[k]
  {
    var items := Prefix(xs, 10);
    assert items[k] == xs[k];
    assert InsightLines(xs)[k] == Numbered(items, 1)[k];
  }

  /** With no insights the report says so. */
  lemma ReportSaysNoInsights(s: State, summarize: Drafting.Summarizer)
    requires s.tree.Some? && RT.ExtractInsights(s.tree.value) == []
    ensures Contains(CreateReport(s, summarize).report, NoInsightsLine)
  {
    var t := s.tree.value;
    var lines := ReportLines(s.query, t, s.quality, [NoInsightsLine], SourceBlocks(t, summarize));
    assert InsightLines([]) == [NoInsightsLine];
    ReportLinesInsight(s.query, t, s.quality, [NoInsightsLine], SourceBlocks(t, summarize), 0);
    JoinContainsPart(lines, "\n", 12);
    CreateReportText(s, summarize);
  }

  /** Each of the first three results that is not an error result has its
      source heading and its summary (or the failure message) in the
      report. */
  lemma ReportSummarisesSources(s: State, summarize: Drafting.Summarizer, k: nat)
    requires s.tree.Some? && k < 3 && k < |RT.GetResults(s.tree.value)|
    requires !Drafting.IsErrorResult(RT.GetResults(s.tree.value)[k].content)
    ensures var report := CreateReport(s, summarize).report;
      var c := RT.GetResults(s.tree.value)[k].content;
      && Contains(report, SourceHeading(k + 1))
      && Contains(report, SummaryText(summarize(c)))
  {
    ReportTextSummarises(s.query, s.tree.value, s.quality, summarize, k);
    CreateReportText(s, summarize);
  }

  lemma ReportTextSummarises(query: string, t: Tree, quality: Option<QualityAnalysis>, summarize: Drafting.Summarizer, k: nat)
    requires k < 3 && k < |RT.GetResults(t)|
    requires !Drafting.IsErrorResult(RT.GetResults(t)[k].content)
    ensures Contains(ReportText(query, t, quality, summarize), SourceHeading(k + 1))
    ensures Contains(ReportText(query, t, quality, summarize), SummaryText(summarize(RT.GetResults(t)[k].content)))
  {
    var j := SourceBlockAt(t, summarize, k);
    var blocks := SourceBlocks(t, summarize);
    ReportHasBlockLine(query, t, quality, summarize, j);
    ReportHasBlockLine(query, t, quality, summarize, j + 1);
    assert blocks[j] == SourceHeading(k + 1);
    assert blocks[j + 1] == SummaryText(summarize(RT.GetResults(t)[k].content));
  }

  /** Where the block of the `k`-th result sits among the source blocks. */
  lemma SourceBlockAt(t: Tree, summarize: Drafting.Summarizer, k: nat) returns (j: nat)
    requires k < 3 && k < |RT.GetResults(t)|
    requires !Drafting.IsErrorResult(RT.GetResults(t)[k].content)
    ensures j + 1 < |SourceBlocks(t, summarize)|
    ensures SourceBlocks(t, summarize)[j] == SourceHeading(k + 1)
    ensures SourceBlocks(t, summarize)[j + 1] == SummaryText(summarize(RT.GetResults(t)[k].content))
  {
    var c := RT.GetResults(t)[k].content;
    var rs := RT.GetResults(t);
    var firsts := Prefix(rs, 3);
    assert firsts[k] == rs[k];
    var cs := RT.ContentsOf(firsts);
    assert cs[k] == c;
    var sources := SourceLines(cs, summarize);
    assert SourceBlocks(t, summarize) == sources;
    SourceLinesHold(cs, summarize, k);
    j :| 0 <= j < |sources| - 1 && sources[j] == SourceHeading(1 + k)
                                 && sources[j + 1] == SummaryText(summarize(c));
  }

  /** Every line of the source blocks is in the report. */
  lemma ReportHasBlockLine(query: string, t: Tree, quality: Option<QualityAnalysis>, summarize: Drafting.Summarizer, j: nat)
    requires j < |SourceBlocks(t, summarize)|
    ensures Contains(ReportText(query, t, quality, summarize), SourceBlocks(t, summarize)[j])
  {
    var ins := InsightLines(RT.ExtractInsights(t));
    var lines := ReportLines(query, t, quality, ins, SourceBlocks(t, summarize));
    ReportLinesSource(query, t, quality, ins, SourceBlocks(t, summarize), j);
    JoinContainsPart(lines, "\n", 15 + |ins| + j);
  }

  // ---------------------------------------------------------------------
  // finalize and the pipeline

  /** `_finalize`: whatever happened, the run is marked completed. */
  function Finalize(s: State): (r: State)
    ensures r.query == s.query && r.maxIterations == s.maxIterations
    ensures r.status == Completed && r.(status := s.status) == s
  {
    s.(status := Completed)
  }

  function Initial(query: string, maxIterations: int): State {
    State(query, None, "", Initialized, "", 0, maxIterations, None)
  }

  /** `run_research(query, max_iterations)`: the final state after the
      graph's five stages, which run in a fixed order whatever each one
      reports. */
  function RunResearch(query: string, svc: Services, mint: Mint, now: RT.Stamp, maxIterations: int := 3): (r: State)
    requires RT.GoodMint(mint)
    ensures r.status == Completed
    ensures r.query == query && r.maxIterations == maxIterations
  {
    var s1 := StartResearch(Initial(query, maxIterations));
    var s2 := ConductResearch(s1, svc, mint, now);
    Finalize(CreateReport(AnalyzeQuality(s2), svc.summarize))
  }

  /** When the extractor answers with a list or raises, the run ends with a
      tree, one iteration, the analysis of that tree and a report. */
  lemma RunSucceeds(query: string, svc: Services, mint: Mint, now: RT.Stamp, maxIterations: int)
    requires RT.GoodMint(mint)
    requires !svc.extract(ResultsText(query, Hits(svc, query)), query).Keyed?
    ensures var r := RunResearch(query, svc, mint, now, maxIterations);
      && r.status == Completed
      && r.tree.Some?
      && r.iteration == 1
      && r.quality == Some(Assess(r.tree.value))
      && r.errorMessage == ""
      && StartsWith(r.report, ReportTitle + query)
  {
    var s1 := StartResearch(Initial(query, maxIterations));
    var s2 := ConductResearch(s1, svc, mint, now);
    AfterResearch(s2, svc.summarize);
    assert RunResearch(query, svc, mint, now, maxIterations) == Finalize(CreateReport(AnalyzeQuality(s2), svc.summarize));
  }

  /** Once the research stage has produced a tree, the quality and report
      stages keep it and the run ends completed with its analysis and a
      report. */
  lemma AfterResearch(s: State, summarize: Drafting.Summarizer)
    requires s.tree.Some?
    ensures var r := Finalize(CreateReport(AnalyzeQuality(s), summarize));
      && r.status == Completed
      && r.tree == s.tree
      && r.iteration == s.iteration
      && r.quality == Some(Assess(s.tree.value))
      && r.errorMessage == s.errorMessage
      && StartsWith(r.report, ReportTitle + s.query)
  {
  }

  /** When the extractor answers with its dictionary, slicing it fails the
      research stage; the later stages then fail on the missing tree, and
      the run still ends "completed", with no tree and an empty report. */
  lemma RunWithDictionaryReply(query: string, svc: Services, mint: Mint, now: RT.Stamp, maxIterations: int)
    requires RT.GoodMint(mint)
    requires svc.extract(ResultsText(query, Hits(svc, query)), query).Keyed?
    ensures var r := RunResearch(query, svc, mint, now, maxIterations);
      && r.status == Completed
      && r.tree.None?
      && r.iteration == 0
      && r.quality.None?
      && r.report == ""
      && r.errorMessage == NoTreeError
  {
    var s1 := StartResearch(Initial(query, maxIterations));
    var s2 := ConductResearch(s1, svc, mint, now);
    assert s2 == s1.(status := Failed, errorMessage := RA.DictSliced);
  }
}
