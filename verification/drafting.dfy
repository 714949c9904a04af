/** The deterministic side of the drafting agent: the keyword dispatch of
    the local stand-in language model, the error wrapping of
    `draft_report`, the research content and prompt chosen per report
    type, the fallback report, and the four-factor research quality score
    with its recommendations. The language model, the agent executor and
    the summarisation tool are parameters. */
module Drafting {
  import opened Wrappers
  import opened Seqs
  import opened Text
  import Analysis
  import RT = ResearchTree

  // ---------------------------------------------------------------------
  // MockLLM._generate

  /** What `_generate` is handed: a plain string, or a list of messages
      (given by their contents). */
  datatype LlmInput = Plain(text: string) | Messages(contents: seq<string>)

  /** The messages' contents, each followed by a newline. */
  function MessagesText(ms: seq<string>): (r: string)
    decreases |ms|
  {
    if ms == [] then "" else MessagesText(ms[..|ms| - 1]) + ms[|ms| - 1] + "\n"
  }

  /** The text `_generate` inspects. */
  function InputText(input: LlmInput): string {
    match input
    case Plain(text) => text
    case Messages(ms) => MessagesText(ms)
  }

  /** Every message takes part in the dispatch: its content occurs in the
      inspected text. */
  lemma {:induction false} MessagesTextHolds(ms: seq<string>, k: nat)
    requires k < |ms|
    ensures Contains(MessagesText(ms), ms[k])
    decreases |ms|
  {
    var init := MessagesText(ms[..|ms| - 1]);
    var last := ms[|ms| - 1];
    assert MessagesText(ms) == init + last + "\n";
    if k == |ms| - 1 {
      ContainsMiddle(init, last, "\n");
    } else {
      MessagesTextHolds(ms[..|ms| - 1], k);
      var s := MessagesText(ms);
      assert s[0..|init|] == init;
      ContainsSlice(s, 0, |init|, ms[k]);
    }
  }

  /** The three canned analyses the stand-in model can return. */
  datatype CannedAnalysis = RiskFactors | Causes | Generic

  /** The two longer phrases the dispatch tests contain the shorter ones. */
  lemma PhrasesNest(l: string)
    ensures Contains(l, "risk factors") ==> Contains(l, "factors")
    ensures Contains(l, "what causes") ==> Contains(l, "causes")
  {
    ContainsMiddle("risk ", "factors", "");
    assert "risk " + "factors" + "" == "risk factors";
    ContainsMiddle("what ", "causes", "");
    assert "what " + "causes" + "" == "what causes";
    if Contains(l, "risk factors") { ContainsTransitive(l, "risk factors", "factors"); }
    if Contains(l, "what causes") { ContainsTransitive(l, "what causes", "causes"); }
  }

  /** The branch `_generate` takes on the lower-cased text. `_generate` also
      tests "risk factors" and "what causes"; those disjuncts never change
      the outcome, so the branch depends on three keywords only. */
  function Dispatch(text: string): (a: CannedAnalysis)
    ensures var l := Lower(text);
      && (a == RiskFactors <==> Contains(l, "heart disease") && Contains(l, "factors"))
      && (a == Causes <==>
            Contains(l, "heart disease") && !Contains(l, "factors") && Contains(l, "causes"))
  {
    var l := Lower(text);
    PhrasesNest(l);
    if Contains(l, "heart disease") && (Contains(l, "risk factors") || Contains(l, "factors")) then RiskFactors
    else if Contains(l, "heart disease") && (Contains(l, "causes") || Contains(l, "what causes")) then Causes
    else Generic
  }

  /** The opening line of each canned analysis; the fixed Markdown body
      after it is not modelled. */
  function CannedText(a: CannedAnalysis): string {
    match a
    case RiskFactors => "Based on the medical documents provided, " + "here are the main risk factors for heart disease:"
    case Causes => "Based on the medical documents provided, " + "here are the main causes of heart disease:"
    case Generic => "# Analysis Summary"
  }

  /** `MockLLM._generate`: the canned analysis its keywords select. */
  function MockGenerate(input: LlmInput): (r: string)
    ensures r != []
    ensures r[0] == 'B' <==> Dispatch(InputText(input)) != Generic
  {
    CannedText(Dispatch(InputText(input)))
  }

  // ---------------------------------------------------------------------
  // draft_report

  /** The model behind the agent: the stand-in, or a backend whose call
      returns the response text or raises with a message. */
  datatype Llm = Mock | Backend(invoke: string -> Result<string, string>)

  const DraftFailure: string := "Error generating report: "

  /** `draft_report(prompt)`: never raises. A failed backend call becomes a
      report that starts with the failure marker and carries the error; the
      stand-in's reports never start with that marker. */
  function DraftReport(llm: Llm, prompt: string): (r: string)
    ensures llm.Backend? && llm.invoke(prompt).Err? ==>
      StartsWith(r, DraftFailure) && r[|DraftFailure|..] == llm.invoke(prompt).error
    ensures llm.Backend? && llm.invoke(prompt).Ok? ==> r == llm.invoke(prompt).value
    ensures llm.Mock? ==> !StartsWith(r, DraftFailure) && r == MockGenerate(Plain(prompt))
  {
    match llm
    case Mock => MockGenerate(Plain(prompt))
    case Backend(invoke) =>
      match invoke(prompt)
      case Ok(text) => text
      case Err(e) => DraftFailure + e
  }

  // ---------------------------------------------------------------------
  // create_report: research content and prompt per report type

  const ErrorMarker: string := "Research error"

  /** A RESULT written by a failed research run. */
  predicate IsErrorResult(content: string) {
    StartsWith(content, ErrorMarker)
  }

  /** A RESULT whose content feeds the report prompt. */
  predicate Usable(content: string) {
    content != [] && !IsErrorResult(content)
  }

  /** The usable contents, in order. */
  function UsableContents(cs: seq<string>): (r: seq<string>)
    ensures |r| <= |cs|
    ensures forall i :: 0 <= i < |r| ==> Usable(r[i]) && r[i] in cs
  {
    if cs == [] then []
    else
      var rest := UsableContents(cs[1..]);
      if Usable(cs[0]) then [cs[0]] + rest else rest
  }

  /** No usable content is dropped. */
  lemma {:induction false} UsableContentsComplete(cs: seq<string>, i: nat)
    requires i < |cs| && Usable(cs[i])
    ensures cs[i] in UsableContents(cs)
  {
    if i > 0 {
      UsableContentsComplete(cs[1..], i - 1);
    }
  }

  /** The report types; any other string selects the comprehensive prompt. */
  datatype ReportKind = Executive | SummaryReport | Comprehensive {

    /** The report type's name, as callers pass it. */
    function Name(): (s: string)
      ensures KindOfReport(s) == this
    {
      match this
      case Executive => "executive"
      case SummaryReport => "summary"
      case Comprehensive => "comprehensive"
    }
  }

  function KindOfReport(reportType: string): ReportKind {
    if reportType == "executive" then Executive
    else if reportType == "summary" then SummaryReport
    else Comprehensive
  }

  /** What the prompt carries besides its fixed instructions: the research
      content (cut per report type) and the insights, one per line. */
  datatype Prompt = Prompt(kind: ReportKind, researchContent: string, insights: string)

  /** The research content `create_report` joins from the usable RESULT contents. */
  function ResearchContent(t: RT.Tree): string {
    Join(UsableContents(RT.ContentsOf(RT.GetResults(t))), "\n\n")
  }

  /** The prompt `create_report` builds: the executive prompt keeps the
      first 3000 characters of the research content, the summary prompt the
      first 4000, the comprehensive prompt all of it. */
  function MakePrompt(t: RT.Tree, reportType: string): (p: Prompt)
    ensures p.kind == KindOfReport(reportType)
    ensures var full := ResearchContent(t);
      && StartsWith(full, p.researchContent)
      && |p.researchContent| ==
           match p.kind
           case Executive => if |full| < 3000 then |full| else 3000
           case SummaryReport => if |full| < 4000 then |full| else 4000
           case Comprehensive => |full|
    ensures p.insights == Join(RT.ExtractInsights(t), "\n")
  {
    var full := ResearchContent(t);
    var kind := KindOfReport(reportType);
    var content := match kind
      case Executive => Prefix(full, 3000)
      case SummaryReport => Prefix(full, 4000)
      case Comprehensive => full;
    Prompt(kind, content, Join(RT.ExtractInsights(t), "\n"))
  }

  // ---------------------------------------------------------------------
  // _create_fallback_report

  /** `str.title()` over ASCII letters: a letter is upper-cased when it
      starts a run of letters and lower-cased otherwise. */
  predicate IsLetter(c: char) {
    'a' <= c <= 'z' || 'A' <= c <= 'Z'
  }

  function TitleFrom(s: string, afterLetter: bool): (r: string)
    ensures |r| == |s|
    ensures forall i :: 0 <= i < |s| ==> (IsLetter(r[i]) <==> IsLetter(s[i]))
  {
    if s == [] then []
    else
      var c := s[0];
      var c' := if !IsLetter(c) then c else if afterLetter then ToLower(c) else ToUpper(c);
      [c'] + TitleFrom(s[1..], IsLetter(c))
  }

  function Title(s: string): string {
    TitleFrom(s, false)
  }

  /** Title-casing twice is title-casing once. */
  lemma {:induction false} TitleIdempotent(s: string, afterLetter: bool)
    ensures TitleFrom(TitleFrom(s, afterLetter), afterLetter) == TitleFrom(s, afterLetter)
    decreases |s|
  {
    if s != [] {
      var r := TitleFrom(s, afterLetter);
      TitleIdempotent(s[1..], IsLetter(s[0]));
      assert r[1..] == TitleFrom(s[1..], IsLetter(s[0]));
      assert IsLetter(r[0]) == IsLetter(s[0]);
    }
  }

  /** The summariser the fallback calls on a RESULT's content: the summary,
      or the message of the exception it raises. */
  type Summarizer = string -> Result<string, string>

  /** Some non-error content among `cs` whose summary fails. */
  predicate SummaryFails(cs: seq<string>, summarize: Summarizer) {
    exists i :: 0 <= i < |cs| && !IsErrorResult(cs[i]) && summarize(cs[i]).Err?
  }

  function NonErrorCount(cs: seq<string>): (n: nat)
    ensures n <= |cs|
  {
    if cs == [] then 0 else (if IsErrorResult(cs[0]) then 0 else 1) + NonErrorCount(cs[1..])
  }

  /** The "### Finding i" blocks for the results numbered from `first`,
      skipping error results while still counting them; the first failed
      summary is raised. */
  function FindingLines(cs: seq<string>, first: nat, summarize: Summarizer): (r: Result<seq<string>, string>)
    ensures r.Ok? <==> !SummaryFails(cs, summarize)
    ensures r.Ok? ==> |r.value| == 3 * NonErrorCount(cs)
    decreases |cs|
  {
    if cs == [] then Ok([])
    else if IsErrorResult(cs[0]) then
      var rest := FindingLines(cs[1..], first + 1, summarize);
      assert SummaryFails(cs, summarize) <==> SummaryFails(cs[1..], summarize) by {
        if SummaryFails(cs, summarize) {
          var i :| 0 <= i < |cs| && !IsErrorResult(cs[i]) && summarize(cs[i]).Err?;
          assert cs[1..][i - 1] == cs[i];
        }
        if SummaryFails(cs[1..], summarize) {
          var i :| 0 <= i < |cs| - 1 && !IsErrorResult(cs[1..][i]) && summarize(cs[1..][i]).Err?;
          assert cs[i + 1] == cs[1..][i];
        }
      }
      rest
    else
      match summarize(cs[0])
      case Err(e) => Err(e)
      case Ok(summary) =>
        var rest := FindingLines(cs[1..], first + 1, summarize);
        assert SummaryFails(cs, summarize) <==> SummaryFails(cs[1..], summarize) by {
          if SummaryFails(cs, summarize) {
            var i :| 0 <= i < |cs| && !IsErrorResult(cs[i]) && summarize(cs[i]).Err?;
            assert cs[1..][i - 1] == cs[i];
          }
          if SummaryFails(cs[1..], summarize) {
            var i :| 0 <= i < |cs| - 1 && !IsErrorResult(cs[1..][i]) && summarize(cs[1..][i]).Err?;
            assert cs[i + 1] == cs[1..][i];
          }
        }
        if rest.Err? then rest
        else Ok(["### Finding " + NatToString(first), summary, ""] + rest.value)
  }

  const BasisText: string := "This report is based on research involving "
  const ResultCountText: string := " research results and "
  const InsightsText: string := " extracted insights."

  /** The fallback report's opening lines, up to the key findings. */
  function FallbackHead(t: RT.Tree, reportType: string): (h: seq<string>)
    ensures |h| == 8
  {
    [ "# Research Report (" + Title(reportType) + ")",
      "",
      "## Executive Summary",
      BasisText + NatToString(|t.nodes|) + " data points, ",
      "including " + NatToString(|RT.GetResults(t)|) + ResultCountText
        + NatToString(|RT.GetInsights(t)|) + InsightsText,
      "",
      "## Key Findings",
      "" ]
  }

  const ResultsHeading: seq<string> := ["", "## Research Results Summary", ""]

  const ValueText: string := "This research provides valuable insights into the investigated topic. "
  const FurtherText: string := "Further analysis may be needed for more specific recommendations."

  /** The fallback report's closing lines. */
  function FallbackTail(t: RT.Tree): (tl: seq<string>)
    ensures |tl| == 5
  {
    [ "## Conclusion",
      ValueText,
      FurtherText,
      "",
      "*Report generated from " + NatToString(|t.nodes|) + " research nodes*" ]
  }

  /** The lines of the fallback report around the finding blocks. */
  function FallbackParts(t: RT.Tree, reportType: string, findings: seq<string>): (parts: seq<string>)
    ensures |parts| == 8 + |Prefix(RT.ExtractInsights(t), 10)| + 3 + |findings| + 5
  {
    var numbered := Numbered(Prefix(RT.ExtractInsights(t), 10), 1);
    FallbackHead(t, reportType) + (numbered + (ResultsHeading + findings + FallbackTail(t)))
  }

  /** `_create_fallback_report`: the first ten insights numbered from 1,
      then a summary block per non-error result among the first five. */
  function FallbackReport(t: RT.Tree, reportType: string, summarize: Summarizer): Result<string, string> {
    var findings :- FindingLines(Prefix(RT.ContentsOf(RT.GetResults(t)), 5), 1, summarize);
    Ok(Join(FallbackParts(t, reportType, findings), "\n"))
  }

  /** The fallback report is produced unless summarising one of the first
      five non-error results fails. */
  lemma FallbackFailsOnlyOnSummary(t: RT.Tree, reportType: string, summarize: Summarizer)
    ensures FallbackReport(t, reportType, summarize).Ok? <==>
              !SummaryFails(Prefix(RT.ContentsOf(RT.GetResults(t)), 5), summarize)
  {
  }

  /** Each of the first ten insights appears in the fallback report as a
      numbered line. */
  lemma FallbackListsInsights(t: RT.Tree, reportType: string, summarize: Summarizer, k: nat)
    requires FallbackReport(t, reportType, summarize).Ok?
    requires k < 10 && k < |RT.ExtractInsights(t)|
    ensures Contains(FallbackReport(t, reportType, summarize).value,
                     NatToString(k + 1) + ". " + RT.ExtractInsights(t)[k])
  {
    var findings := FindingLines(Prefix(RT.ContentsOf(RT.GetResults(t)), 5), 1, summarize).value;
    var parts := FallbackParts(t, reportType, findings);
    var items := Prefix(RT.ExtractInsights(t), 10);
    assert items[k] == RT.ExtractInsights(t)[k];
    FallbackPartsInsight(t, reportType, findings, k);
    JoinContainsPart(parts, "\n", 8 + k);
  }

  /** The numbered insights follow the eight opening lines. */
  lemma FallbackPartsInsight(t: RT.Tree, reportType: string, findings: seq<string>, k: nat)
    requires k < |Prefix(RT.ExtractInsights(t), 10)|
    ensures 8 + k < |FallbackParts(t, reportType, findings)|
    ensures FallbackParts(t, reportType, findings)[8 + k] == Numbered(Prefix(RT.ExtractInsights(t), 10), 1)[k]
  {
    var numbered := Numbered(Prefix(RT.ExtractInsights(t), 10), 1);
    MiddleAt(FallbackHead(t, reportType), numbered, ResultsHeading + findings + FallbackTail(t), k);
  }

  // ---------------------------------------------------------------------
  // create_report

  /** The agent run on a prompt: its output when the reply has one, no
      output otherwise, or the message of the exception it raises. */
  type Executor = Prompt -> Result<Option<string>, string>

  const CreateFailure: string := "Error creating report: "

  /** `create_report`: the agent's output when there is one, otherwise the
      fallback report; an agent failure is reported ahead of the fallback.
      Only a failing fallback makes the call raise. */
  function CreateReport(t: RT.Tree, reportType: string, executor: Option<Executor>,
                        summarize: Summarizer): (r: Result<string, string>)
    ensures var reply := AgentReply(t, reportType, executor);
      reply.Some? && reply.value.Ok? && reply.value.value.Some? ==> r == Ok(reply.value.value.value)
    ensures var reply := AgentReply(t, reportType, executor);
      reply.None? || reply.value == Ok(None) ==> r == FallbackReport(t, reportType, summarize)
    ensures var reply := AgentReply(t, reportType, executor);
      reply.Some? && reply.value.Err? && r.Ok? ==>
        && FallbackReport(t, reportType, summarize).Ok?
        && r.value == CreateFailure + reply.value.error + "\n\n" + FallbackReport(t, reportType, summarize).value
    ensures r.Err? ==> FallbackReport(t, reportType, summarize) == Err(r.error)
  {
    var fallback := FallbackReport(t, reportType, summarize);
    var reply := AgentReply(t, reportType, executor);
    if reply.None? || reply.value == Ok(None) then fallback
    else if reply.value.Ok? then Ok(reply.value.value.value)
    else if fallback.Err? then fallback
    else Ok(CreateFailure + reply.value.error + "\n\n" + fallback.value)
  }

  /** The agent's reply to the prompt, when there is an agent. */
  function AgentReply(t: RT.Tree, reportType: string, executor: Option<Executor>): Option<Result<Option<string>, string>> {
    if executor.None? then None else Some(executor.value(MakePrompt(t, reportType)))
  }

  // ---------------------------------------------------------------------
  // analyze_research_quality and _get_quality_recommendations

  /** One factor's contribution to the score and its feedback line. */
  datatype Grade = Grade(points: nat, feedback: string)

  function InsightGrade(n: nat): Grade {
    if n >= 5 then Grade(25, "Good insight extraction")
    else if n >= 3 then Grade(15, "Moderate insight extraction")
    else Grade(0, "Limited insights extracted")
  }

  function ResultGrade(n: nat): Grade {
    if n >= 3 then Grade(25, "Comprehensive research results")
    else if n >= 1 then Grade(15, "Basic research conducted")
    else Grade(0, "Insufficient research results")
  }

  function ContentGrade(n: nat): Grade {
    if n > 5000 then Grade(25, "Rich content gathered")
    else if n > 2000 then Grade(15, "Adequate content volume")
    else Grade(0, "Limited content gathered")
  }

  function StructureGrade(n: nat): Grade {
    if n > 10 then Grade(25, "Well-structured research tree")
    else if n > 5 then Grade(15, "Basic research structure")
    else Grade(0, "Simple research structure")
  }

  /** The four factors in the order `analyze_research_quality` scores them. */
  function Grades(insights: nat, results: nat, contentLength: nat, nodes: nat): (gs: seq<Grade>)
    ensures |gs| == 4
    ensures forall i :: 0 <= i < 4 ==> gs[i].points == 0 || gs[i].points == 15 || gs[i].points == 25
  {
    [InsightGrade(insights), ResultGrade(results), ContentGrade(contentLength), StructureGrade(nodes)]
  }

  /** `quality_score`: the sum of the four contributions. */
  function DraftScore(insights: nat, results: nat, contentLength: nat, nodes: nat): (score: nat)
    ensures score <= 100
  {
    var gs := Grades(insights, results, contentLength, nodes);
    gs[0].points + gs[1].points + gs[2].points + gs[3].points
  }

  /** The points a feedback line stands for. */
  function FeedbackPoints(line: string): nat {
    if line in ["Good insight extraction", "Comprehensive research results",
                "Rich content gathered", "Well-structured research tree"] then 25
    else if line in ["Moderate insight extraction", "Basic research conducted",
                     "Adequate content volume", "Basic research structure"] then 15
    else 0
  }

  /** The feedback lines alone determine the score. */
  lemma ScoreFromFeedback(insights: nat, results: nat, contentLength: nat, nodes: nat)
    ensures var gs := Grades(insights, results, contentLength, nodes);
      DraftScore(insights, results, contentLength, nodes) ==
        FeedbackPoints(gs[0].feedback) + FeedbackPoints(gs[1].feedback)
        + FeedbackPoints(gs[2].feedback) + FeedbackPoints(gs[3].feedback)
  {
    InsightLineStandsForPoints(insights);
    ResultLineStandsForPoints(results);
    ContentLineStandsForPoints(contentLength);
    StructureLineStandsForPoints(nodes);
  }

  lemma InsightLineStandsForPoints(n: nat)
    ensures FeedbackPoints(InsightGrade(n).feedback) == InsightGrade(n).points
  {
    if n < 3 {
      assert InsightGrade(n).feedback[0] == 'L';
    }
  }

  lemma ResultLineStandsForPoints(n: nat)
    ensures FeedbackPoints(ResultGrade(n).feedback) == ResultGrade(n).points
  {
    if n < 1 {
      assert ResultGrade(n).feedback[0] == 'I';
    }
  }

  lemma ContentLineStandsForPoints(n: nat)
    ensures FeedbackPoints(ContentGrade(n).feedback) == ContentGrade(n).points
  {
    if n <= 2000 {
      assert ContentGrade(n).feedback[0] == 'L';
    }
  }

  lemma StructureLineStandsForPoints(n: nat)
    ensures FeedbackPoints(StructureGrade(n).feedback) == StructureGrade(n).points
  {
    if n <= 5 {
      assert StructureGrade(n).feedback[0] == 'S';
    }
  }

  /** More insights, results, content or nodes never lower the score. */
  lemma DraftScoreMonotone(i: nat, r: nat, c: nat, n: nat, i': nat, r': nat, c': nat, n': nat)
    requires i <= i' && r <= r' && c <= c' && n <= n'
    ensures DraftScore(i, r, c, n) <= DraftScore(i', r', c', n')
  {
  }

  const ExpandAdvice: seq<string> := [
    "Consider expanding research scope", "Gather more diverse sources", "Extract additional insights"]
  const AdequateAdvice: seq<string> := [
    "Research is adequate but could be enhanced", "Consider additional follow-up questions"]
  const GoodAdvice: seq<string> := [
    "Research quality is good", "Consider organizing findings for presentation"]

  /** `_get_quality_recommendations(score, feedback)`; the feedback is not
      consulted. */
  function Recommendations(score: int): (r: seq<string>)
    ensures r == ExpandAdvice <==> score < 40
    ensures r == AdequateAdvice <==> 40 <= score < 70
    ensures r == GoodAdvice <==> 70 <= score
  {
    assert ExpandAdvice != AdequateAdvice && ExpandAdvice != GoodAdvice;
    assert AdequateAdvice[0] != GoodAdvice[0];
    if score < 40 then ExpandAdvice
    else if score < 70 then AdequateAdvice
    else GoodAdvice
  }

  /** Good-quality advice needs every factor to contribute, or two factors
      at full marks. */
  lemma GoodAdviceNeeds(insights: nat, results: nat, contentLength: nat, nodes: nat)
    requires Recommendations(DraftScore(insights, results, contentLength, nodes)) == GoodAdvice
    ensures var gs := Grades(insights, results, contentLength, nodes);
      || (forall k :: 0 <= k < 4 ==> gs[k].points > 0)
      || (exists j, k :: 0 <= j < k < 4 && gs[j].points == 25 && gs[k].points == 25)
  {
    var gs := Grades(insights, results, contentLength, nodes);
    if !(forall k :: 0 <= k < 4 ==> gs[k].points > 0) {
      if gs[0].points == 25 && gs[1].points == 25 { assert 0 < 1; }
      else if gs[0].points == 25 && gs[2].points == 25 { assert 0 < 2; }
      else if gs[0].points == 25 && gs[3].points == 25 { assert 0 < 3; }
      else if gs[1].points == 25 && gs[2].points == 25 { assert 1 < 2; }
      else if gs[1].points == 25 && gs[3].points == 25 { assert 1 < 3; }
      else {
        assert gs[2].points == 25 && gs[3].points == 25;
      }
    }
  }

  /** The sentiment entry: the analysis of the joined RESULT contents, or
      the neutral placeholder with confidence 0 when there is no content. */
  datatype QualitySentiment = Assessed(report: Analysis.SentimentReport) | NothingToAssess

  datatype QualityReport = QualityReport(
    score: nat,
    totalNodes: nat,
    insightsCount: nat,
    resultsCount: nat,
    contentLength: nat,
    sentiment: QualitySentiment,
    feedback: seq<string>,
    recommendations: seq<string>)

  /** The total length of the contents of the nodes listed in `ids`. */
  function ContentLength(nodes: map<RT.NodeId, RT.Node>, ids: seq<RT.NodeId>): nat {
    if ids == [] then 0
    else ContentLength(nodes, ids[..|ids| - 1])
         + (if ids[|ids| - 1] in nodes then |nodes[ids[|ids| - 1]].content| else 0)
  }

  /** The total only reads the content lengths of the listed nodes. */
  lemma {:induction false} ContentLengthFrame(a: map<RT.NodeId, RT.Node>, b: map<RT.NodeId, RT.Node>, ids: seq<RT.NodeId>)
    requires forall k :: 0 <= k < |ids| ==> (ids[k] in a <==> ids[k] in b)
    requires forall k :: 0 <= k < |ids| && ids[k] in a ==> |a[ids[k]].content| == |b[ids[k]].content|
    ensures ContentLength(a, ids) == ContentLength(b, ids)
    decreases |ids|
  {
    if ids != [] {
      ContentLengthFrame(a, b, ids[..|ids| - 1]);
    }
  }

  /** Adding a node adds exactly the length of its content to the total. */
  lemma ContentLengthAdd(t: RT.Tree, id: RT.NodeId, content: string, kind: RT.NodeType,
                         parent: Option<RT.NodeId>, meta: RT.Metadata, now: RT.Stamp)
    requires RT.Fresh(t, id) && id !in t.order
    requires RT.AddNode(t, id, content, kind, parent, meta, now).Ok?
    ensures var r := RT.AddNode(t, id, content, kind, parent, meta, now).value;
      ContentLength(r.nodes, r.order) == ContentLength(t.nodes, t.order) + |content|
  {
    var r := RT.AddNode(t, id, content, kind, parent, meta, now).value;
    assert r.order[..|r.order| - 1] == t.order;
    ContentLengthFrame(r.nodes, t.nodes, t.order);
  }

  function NonEmpty(cs: seq<string>): (r: seq<string>)
    ensures forall i :: 0 <= i < |r| ==> r[i] != []
    ensures r == [] <==> forall i :: 0 <= i < |cs| ==> cs[i] == []
  {
    if cs == [] then []
    else if cs[0] == [] then NonEmpty(cs[1..])
    else [cs[0]] + NonEmpty(cs[1..])
  }

  lemma JoinNonEmpty(parts: seq<string>, sep: string)
    ensures parts != [] && parts[0] != [] ==> Join(parts, sep) != []
  {
  }

  /** The sentiment of the non-empty RESULT contents joined by newlines;
      with no content there is nothing to assess. */
  function SentimentOf(cs: seq<string>): (s: QualitySentiment)
    ensures s.NothingToAssess? <==> forall i :: 0 <= i < |cs| ==> cs[i] == []
    ensures var all := Join(NonEmpty(cs), "\n");
      all != [] ==> s == Assessed(Analysis.AnalyzeSentiment(all))
  {
    var nonEmpty := NonEmpty(cs);
    var all := Join(nonEmpty, "\n");
    JoinNonEmpty(nonEmpty, "\n");
    if all != [] then Assessed(Analysis.AnalyzeSentiment(all)) else NothingToAssess
  }

  /** `analyze_research_quality(tree)`. */
  function AnalyzeResearchQuality(t: RT.Tree): (q: QualityReport)
    ensures q.insightsCount == |RT.GetInsights(t)| && q.resultsCount == |RT.GetResults(t)|
    ensures q.totalNodes == |t.nodes|
    ensures q.score == DraftScore(q.insightsCount, q.resultsCount, q.contentLength, q.totalNodes)
    ensures q.feedback == [InsightGrade(q.insightsCount).feedback, ResultGrade(q.resultsCount).feedback,
                           ContentGrade(q.contentLength).feedback, StructureGrade(q.totalNodes).feedback]
    ensures q.recommendations == Recommendations(q.score)
    ensures var cs := RT.ContentsOf(RT.GetResults(t));
      q.sentiment.NothingToAssess? <==> forall i :: 0 <= i < |cs| ==> cs[i] == []
    ensures q.contentLength == ContentLength(t.nodes, t.order)
    ensures var all := Join(NonEmpty(RT.ContentsOf(RT.GetResults(t))), "\n");
      all != [] ==> q.sentiment == Assessed(Analysis.AnalyzeSentiment(all))
  {
    var insights := |RT.GetInsights(t)|;
    var results := RT.GetResults(t);
    var total := |t.nodes|;
    var length := ContentLength(t.nodes, t.order);
    var gs := Grades(insights, |results|, length, total);
    var score := DraftScore(insights, |results|, length, total);
    var feedback := [gs[0].feedback, gs[1].feedback, gs[2].feedback, gs[3].feedback];
    QualityReport(score, total, insights, |results|, length, SentimentOf(RT.ContentsOf(results)),
                  feedback, Recommendations(score))
  }
}
