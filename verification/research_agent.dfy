/** How the research agent shapes the research tree: `research` in direct
    mode, in agent mode and on its error path, the follow-up merge of
    `deep_research`, and the text of `get_research_summary`. The context
    lookup, the web search, the agent run and the insight extractor are
    parameters; node ids come from an id supply and stamps are opaque. */
module ResearchAgent {
  import opened Wrappers
  import opened Seqs
  import opened Text
  import Analysis
  import RT = ResearchTree

  type Tree = RT.Tree

  /** The id supply: the `i`-th node inserted into a tree gets `mint(i)`. */
  type Mint = nat -> RT.NodeId

  // ---------------------------------------------------------------------
  // Collaborators

  /** One entry of the web search reply: its title, address and content
      when the entry has them, or an entry carrying an error. */
  datatype SearchHit = SearchHit(title: Option<string>, url: Option<string>, content: Option<string>, failed: bool)

  /** What the insight extractor hands back: a list of insights; the
      dictionary the tool actually returns (whose slicing raises); or the
      message of an exception. */
  datatype InsightsReply =
    | Listed(insights: seq<string>)
    | Keyed(report: Analysis.InsightReport)
    | Raised(message: string)

  /** The calls `research` makes into code outside the model. `agent` is
      absent when no agent executor was set up; it is given the query and
      the research context and answers with its output, if the reply has
      one. Each call can raise, with a message. */
  datatype Collaborators = Collaborators(
    context: string -> Result<string, string>,
    search: string -> Result<seq<SearchHit>, string>,
    agent: Option<(string, string) -> Result<Option<string>, string>>,
    extract: (string, string) -> InsightsReply)

  // ---------------------------------------------------------------------
  // The direct-mode research output

  /** The block written for the `i`-th search hit; error entries are
      skipped but still counted. */
  function HitBlock(h: SearchHit, i: nat): string {
    if h.failed then ""
    else HitHeading(h, i) + ("   " + Prefix(h.content.GetOr("No content"), 200) + "...\n\n")
  }

  function HitHeading(h: SearchHit, i: nat): string {
    NatToString(i) + ". " + h.title.GetOr("No title") + "\n"
  }

  function HitBlocks(hits: seq<SearchHit>, first: nat): string
    decreases |hits|
  {
    if hits == [] then "" else HitBlock(hits[0], first) + HitBlocks(hits[1..], first + 1)
  }

  /** The RESULT content direct mode writes for the search hits. */
  function DirectOutput(query: string, hits: seq<SearchHit>): string {
    "Research Results for: " + query + "\n\n" + HitBlocks(hits, 1)
  }

  /** Every search hit that is not an error appears under its position. */
  lemma {:induction false} HitBlocksHold(hits: seq<SearchHit>, first: nat, k: nat)
    requires k < |hits| && !hits[k].failed
    ensures Contains(HitBlocks(hits, first), HitHeading(hits[k], first + k))
    decreases |hits|
  {
    var rest := HitBlocks(hits[1..], first + 1);
    var block := HitBlock(hits[0], first);
    assert HitBlocks(hits, first) == block + rest;
    if k == 0 {
      HeadingInBlock(hits[0], first, rest);
    } else {
      HitBlocksHold(hits[1..], first + 1, k - 1);
      assert hits[1..][k - 1] == hits[k];
      ContainsRight(block, rest, HitHeading(hits[k], first + k));
    }
  }

  /** A hit's block opens with its heading. */
  lemma HeadingInBlock(h: SearchHit, i: nat, rest: string)
    requires !h.failed
    ensures Contains(HitBlock(h, i) + rest, HitHeading(h, i))
  {
    var x := HitHeading(h, i);
    var y := "   " + Prefix(h.content.GetOr("No content"), 200) + "...\n\n";
    ContainsMiddle([], x, y + rest);
    assert [] + x + (y + rest) == HitBlock(h, i) + rest;
  }

  /** The direct-mode output lists every hit that is not an error, numbered
      by its position in the reply. */
  lemma DirectOutputHolds(query: string, hits: seq<SearchHit>, k: nat)
    requires k < |hits| && !hits[k].failed
    ensures Contains(DirectOutput(query, hits), HitHeading(hits[k], k + 1))
  {
    var head := "Research Results for: " + query + "\n\n";
    var s := DirectOutput(query, hits);
    HitBlocksHold(hits, 1, k);
    assert s[|head|..|s|] == HitBlocks(hits, 1);
    ContainsSlice(s, |head|, |s|, HitHeading(hits[k], k + 1));
  }

  /** Error entries add nothing to the output. */
  lemma {:induction false} FailedHitsAddNothing(hits: seq<SearchHit>, first: nat)
    requires forall i :: 0 <= i < |hits| ==> hits[i].failed
    ensures HitBlocks(hits, first) == ""
    decreases |hits|
  {
    if hits != [] {
      FailedHitsAddNothing(hits[1..], first + 1);
    }
  }

  // ---------------------------------------------------------------------
  // research

  /** What the `try` block of `research` leaves behind: the RESULT it adds
      (content and metadata), the insights it adds under that RESULT, and
      the message of the exception that ends it, if one does. */
  datatype Attempt = Attempt(result: Option<(string, RT.Metadata)>, insights: seq<string>, error: Option<string>)

  /** The message Python gives when a dictionary is sliced. */
  const DictSliced: string := "unhashable type: 'slice'"

  /** `extract_insights(text, query)[:5]` */
  function FirstInsights(reply: InsightsReply): (r: Result<seq<string>, string>)
    ensures r.Ok? <==> reply.Listed?
    ensures r.Ok? ==> |r.value| <= 5 && |r.value| <= |reply.insights| && r.value == reply.insights[..|r.value|]
    ensures reply.Listed? && |reply.insights| >= 5 ==> |r.value| == 5
  {
    match reply
    case Listed(xs) => Ok(Prefix(xs, 5))
    case Keyed(_) => Err(DictSliced)
    case Raised(e) => Err(e)
  }

  /** A RESULT was written; then the insights are extracted from it. */
  function WithResult(text: string, meta: RT.Metadata, reply: InsightsReply): Attempt {
    match FirstInsights(reply)
    case Ok(xs) => Attempt(Some((text, meta)), xs, None)
    case Err(e) => Attempt(Some((text, meta)), [], Some(e))
  }

  const DirectMeta: RT.Metadata :=
    map["agent" := RT.Str("research_agent"), "iteration" := RT.Num(1), "mode" := RT.Str("direct")]
  const AgentMeta: RT.Metadata :=
    map["agent" := RT.Str("research_agent"), "iteration" := RT.Num(1)]

  /** The `try` block of `research`. Without an agent it writes the
      search hits as one RESULT; with one it writes the agent's output when
      the reply has one. Insights are taken only after a RESULT was written,
      at most five of them; any raised exception ends the block. */
  function Attempted(query: string, c: Collaborators): (a: Attempt)
    ensures |a.insights| <= 5
    ensures a.insights != [] ==> a.result.Some? && a.error.None?
    ensures c.agent.None? && a.error.None? ==> a.result.Some? && a.result.value.1 == DirectMeta
    ensures a.result.Some? ==>
      FirstInsights(c.extract(a.result.value.0, query)) ==
        (if a.error.None? then Ok(a.insights) else Err(a.error.value))
  {
    match c.context(query)
    case Err(e) => Attempt(None, [], Some(e))
    case Ok(context) =>
      match c.agent
      case None =>
        (match c.search(query)
         case Err(e) => Attempt(None, [], Some(e))
         case Ok(hits) =>
           var out := DirectOutput(query, hits);
           WithResult(out, DirectMeta, c.extract(out, query)))
      case Some(run) =>
        match run(query, context)
        case Err(e) => Attempt(None, [], Some(e))
        case Ok(None) => Attempt(None, [], None)
        case Ok(Some(out)) => WithResult(out, AgentMeta, c.extract(out, query))
  }

  const QueryMeta: RT.Metadata := map["depth" := RT.Num(0), "type" := RT.Str("initial_query")]
  const InsightMeta: RT.Metadata := map["extracted_by" := RT.Str("research_agent")]
  const ErrorMeta: RT.Metadata := map["error" := RT.Flag(true), "agent" := RT.Str("research_agent")]
  const ErrorPrefix: string := "Research error: "

  /** The tree `research` starts from: the root and the QUERY node under it. */
  function Opened(query: string, mint: Mint, now: RT.Stamp): (t: Tree)
    requires RT.GoodMint(mint)
    ensures RT.Supplied(t, mint) && RT.Valid(t)
    ensures t.rootId == mint(0) && t.order == [mint(0), mint(1)]
    ensures t.nodes[mint(0)] ==
      RT.Node(mint(0), RT.Root, "Research: " + query, map[RT.CreatedAt := RT.Time(now)], None, [mint(1)])
    ensures t.nodes[mint(1)] ==
      RT.Node(mint(1), RT.Query, query, QueryMeta[RT.CreatedAt := RT.Time(now)], Some(mint(0)), [])
  {
    var t0 := RT.Start("Research: " + query, mint, now);
    RT.GrowKeepsValid(t0, mint, query, RT.Query, None, QueryMeta, now);
    RT.Grow(t0, mint, query, RT.Query, None, QueryMeta, now)
  }

  /** The starting tree holds one ROOT and one QUERY id. */
  lemma OpenedKinds(query: string, mint: Mint, now: RT.Stamp, k: RT.NodeType)
    requires RT.GoodMint(mint)
    ensures var t := Opened(query, mint, now);
      RT.IdsOfKind(t.nodes, t.order, k) ==
        (if k == RT.Root then [mint(0)] else []) + (if k == RT.Query then [mint(1)] else [])
  {
    var t0 := RT.Start("Research: " + query, mint, now);
    assert Opened(query, mint, now) == RT.Grow(t0, mint, query, RT.Query, None, QueryMeta, now);
    RT.StartKinds("Research: " + query, mint, now, k);
    RT.GrowKinds(t0, mint, query, RT.Query, None, QueryMeta, now, k);
  }

  /** The RESULT node under `q` and its INSIGHT children, when the attempt
      wrote a result. */
  function Recorded(t: Tree, q: RT.NodeId, a: Attempt, im: RT.Metadata, mint: Mint, now: RT.Stamp): (r: Tree)
    requires RT.Supplied(t, mint) && RT.Valid(t) && q in t.nodes
    ensures RT.Supplied(r, mint) && RT.Valid(r)
    ensures r.rootId == t.rootId && t.nodes.Keys <= r.nodes.Keys
  {
    if a.result.None? then t
    else
      var t2 := RT.Grow(t, mint, a.result.value.0, RT.Result, Some(q), a.result.value.1, now);
      RT.GrowKeepsValid(t, mint, a.result.value.0, RT.Result, Some(q), a.result.value.1, now);
      RT.GrowAllKeepsValid(t2, mint, a.insights, RT.Insight, RT.NextId(t, mint), im, now);
      RT.GrowAll(t2, mint, a.insights, RT.Insight, RT.NextId(t, mint), im, now)
  }

  /** The `except` branch: a RESULT "Research error: ..." under `q` when
      the attempt raised. */
  function Finished(t: Tree, q: RT.NodeId, a: Attempt, mint: Mint, now: RT.Stamp): (r: Tree)
    requires RT.Supplied(t, mint) && RT.Valid(t) && q in t.nodes
    ensures RT.Supplied(r, mint) && RT.Valid(r)
    ensures r.rootId == t.rootId && t.nodes.Keys <= r.nodes.Keys
  {
    if a.error.None? then t
    else
      RT.GrowKeepsValid(t, mint, ErrorPrefix + a.error.value, RT.Result, Some(q), ErrorMeta, now);
      RT.Grow(t, mint, ErrorPrefix + a.error.value, RT.Result, Some(q), ErrorMeta, now)
  }

  /** `research(query)`: never raises. A raised exception becomes a RESULT
      node "Research error: ..." under the QUERY node. */
  function Research(query: string, c: Collaborators, mint: Mint, now: RT.Stamp): (t: Tree)
    requires RT.GoodMint(mint)
    ensures RT.Supplied(t, mint) && RT.Valid(t)
    ensures t.rootId == mint(0) && t.rootId in t.nodes
  {
    var t1 := Opened(query, mint, now);
    var a := Attempted(query, c);
    Finished(Recorded(t1, mint(1), a, InsightMeta, mint, now), mint(1), a, mint, now)
  }

  // ---------------------------------------------------------------------
  // The shape of the tree `research` returns

  /** `Recorded` changes no node other than `q`, and only appends the
      RESULT's id to `q`'s children. */
  lemma RecordedFrame(t: Tree, q: RT.NodeId, a: Attempt, im: RT.Metadata, mint: Mint, now: RT.Stamp)
    requires RT.Supplied(t, mint) && RT.Valid(t) && q in t.nodes
    ensures var r := Recorded(t, q, a, im, mint, now);
      && (forall x :: x in t.nodes && x != q ==> r.nodes[x] == t.nodes[x])
      && r.nodes[q] == t.nodes[q].(childrenIds := t.nodes[q].childrenIds +
                                    (if a.result.Some? then [RT.NextId(t, mint)] else []))
  {
    if a.result.Some? {
      var t2 := RT.Grow(t, mint, a.result.value.0, RT.Result, Some(q), a.result.value.1, now);
      assert Recorded(t, q, a, im, mint, now) == RT.GrowAll(t2, mint, a.insights, RT.Insight, RT.NextId(t, mint), im, now);
      ResultThenInsights(t, q, a.result.value.0, a.result.value.1, a.insights, im, mint, now);
    }
  }

  /** A RESULT under `q` followed by insights under that RESULT touches no
      old node but `q`, and `q` only gains the RESULT as a child. */
  lemma ResultThenInsights(t: Tree, q: RT.NodeId, content: string, meta: RT.Metadata,
                           insights: seq<string>, im: RT.Metadata, mint: Mint, now: RT.Stamp)
    requires RT.Supplied(t, mint) && q in t.nodes
    ensures var rid := RT.NextId(t, mint);
      var t2 := RT.Grow(t, mint, content, RT.Result, Some(q), meta, now);
      var r := RT.GrowAll(t2, mint, insights, RT.Insight, rid, im, now);
      && (forall x :: x in t.nodes && x != q ==> r.nodes[x] == t.nodes[x])
      && r.nodes[q] == t.nodes[q].(childrenIds := t.nodes[q].childrenIds + [rid])
  {
    var rid := RT.NextId(t, mint);
    RT.NextIdFresh(t, mint);
    var t2 := RT.Grow(t, mint, content, RT.Result, Some(q), meta, now);
    RT.GrowAllKeepsOthers(t2, mint, insights, RT.Insight, rid, im, now);
  }

  /** The RESULT `Recorded` writes sits under `q` and holds the attempt's
      result; its children are the insights, in order; and they are the
      nodes added after it. */
  lemma RecordedResult(t: Tree, q: RT.NodeId, a: Attempt, im: RT.Metadata, mint: Mint, now: RT.Stamp)
    requires RT.Supplied(t, mint) && RT.Valid(t) && q in t.nodes && a.result.Some?
    ensures var r := Recorded(t, q, a, im, mint, now);
      var rid := RT.NextId(t, mint);
      && rid in r.nodes
      && r.nodes[rid].kind == RT.Result
      && r.nodes[rid].content == a.result.value.0
      && r.nodes[rid].parentId == Some(q)
      && AllHold(r, r.nodes[rid].childrenIds, a.insights)
  {
    var rid := RT.NextId(t, mint);
    RT.NextIdFresh(t, mint);
    var t2 := RT.Grow(t, mint, a.result.value.0, RT.Result, Some(q), a.result.value.1, now);
    var r := RT.GrowAll(t2, mint, a.insights, RT.Insight, rid, im, now);
    assert Recorded(t, q, a, im, mint, now) == r;
    assert t2.order == t.order + [rid];
    assert t2.nodes[rid] == RT.Node(rid, RT.Result, a.result.value.0,
                                    a.result.value.1[RT.CreatedAt := RT.Time(now)], Some(q), []);
    RT.GrowAllParent(t2, mint, a.insights, RT.Insight, rid, im, now);
    RT.GrowAllNew(t2, mint, a.insights, RT.Insight, rid, im, now);
    var added := r.order[|t2.order|..];
    assert r.nodes[rid].childrenIds == added;
    forall j | 0 <= j < |a.insights|
      ensures ChildHolds(r, added[j], a.insights[j])
    {
      assert added[j] == r.order[|t2.order| + j];
    }
  }

  /** `Recorded` adds one RESULT id and one INSIGHT id per insight to the
      ids of those types, when the attempt wrote a result. */
  lemma RecordedKinds(t: Tree, q: RT.NodeId, a: Attempt, im: RT.Metadata, mint: Mint, now: RT.Stamp, k: RT.NodeType)
    requires RT.Supplied(t, mint) && RT.Valid(t) && q in t.nodes
    ensures var r := Recorded(t, q, a, im, mint, now);
      |RT.IdsOfKind(r.nodes, r.order, k)| ==
        |RT.IdsOfKind(t.nodes, t.order, k)|
        + (if a.result.Some? && k == RT.Result then 1 else 0)
        + (if a.result.Some? && k == RT.Insight then |a.insights| else 0)
  {
    if a.result.Some? {
      var rid := RT.NextId(t, mint);
      RT.NextIdFresh(t, mint);
      var t2 := RT.Grow(t, mint, a.result.value.0, RT.Result, Some(q), a.result.value.1, now);
      assert Recorded(t, q, a, im, mint, now) == RT.GrowAll(t2, mint, a.insights, RT.Insight, rid, im, now);
      RT.AddNodeAppendsKind(t, rid, a.result.value.0, RT.Result, Some(q), a.result.value.1, now, k);
      RT.GrowAllKinds(t2, mint, a.insights, RT.Insight, rid, im, now, k);
    }
  }

  /** After `Recorded` the insight contents are the attempt's insights,
      appended to the old ones, when the attempt wrote a result. */
  lemma RecordedInsights(t: Tree, q: RT.NodeId, a: Attempt, im: RT.Metadata, mint: Mint, now: RT.Stamp)
    requires RT.Supplied(t, mint) && RT.Valid(t) && q in t.nodes
    ensures RT.ExtractInsights(Recorded(t, q, a, im, mint, now)) ==
              RT.ExtractInsights(t) + (if a.result.Some? then a.insights else [])
  {
    if a.result.Some? {
      var rid := RT.NextId(t, mint);
      RT.NextIdFresh(t, mint);
      var t2 := RT.Grow(t, mint, a.result.value.0, RT.Result, Some(q), a.result.value.1, now);
      assert Recorded(t, q, a, im, mint, now) == RT.GrowAll(t2, mint, a.insights, RT.Insight, rid, im, now);
      assert RT.ExtractInsights(t2) == RT.ExtractInsights(t) by {
        RT.GrowInsights(t, mint, a.result.value.0, RT.Result, Some(q), a.result.value.1, now);
        assert RT.ExtractInsights(t) + [] == RT.ExtractInsights(t);
      }
      RT.GrowAllInsights(t2, mint, a.insights, RT.Insight, rid, im, now);
    }
  }

  /** On a tree with one QUERY node a recorded result still leaves one. */
  lemma RecordedKeepsQuery(t: Tree, q: RT.NodeId, a: Attempt, im: RT.Metadata, mint: Mint, now: RT.Stamp)
    requires RT.Supplied(t, mint) && RT.Valid(t) && q in t.nodes && a.result.Some?
    requires |RT.IdsOfKind(t.nodes, t.order, RT.Query)| == 1
    ensures var r := Recorded(t, q, a, im, mint, now);
      |RT.IdsOfKind(r.nodes, r.order, RT.Query)| == 1
  {
    RecordedKinds(t, q, a, im, mint, now, RT.Query);
  }

  /** On a tree without RESULT nodes a recorded result leaves one. */
  lemma RecordedAddsResult(t: Tree, q: RT.NodeId, a: Attempt, im: RT.Metadata, mint: Mint, now: RT.Stamp)
    requires RT.Supplied(t, mint) && RT.Valid(t) && q in t.nodes && a.result.Some?
    requires |RT.IdsOfKind(t.nodes, t.order, RT.Result)| == 0
    ensures var r := Recorded(t, q, a, im, mint, now);
      |RT.IdsOfKind(r.nodes, r.order, RT.Result)| == 1
  {
    RecordedKinds(t, q, a, im, mint, now, RT.Result);
  }

  /** On a tree without insights a recorded result leaves exactly the
      attempt's insights. */
  lemma RecordedInsightsAlone(t: Tree, q: RT.NodeId, a: Attempt, im: RT.Metadata, mint: Mint, now: RT.Stamp)
    requires RT.Supplied(t, mint) && RT.Valid(t) && q in t.nodes && a.result.Some?
    requires RT.ExtractInsights(t) == []
    ensures var r := Recorded(t, q, a, im, mint, now);
      RT.ExtractInsights(r) == a.insights
  {
    RecordedInsights(t, q, a, im, mint, now);
    assert [] + a.insights == a.insights;
  }

  /** On a tree holding one QUERY, no RESULT and no insight, a recorded
      result leaves one QUERY, one RESULT and exactly the attempt's
      insights. */
  lemma RecordedOnFresh(t: Tree, q: RT.NodeId, a: Attempt, im: RT.Metadata, mint: Mint, now: RT.Stamp)
    requires RT.Supplied(t, mint) && RT.Valid(t) && q in t.nodes && a.result.Some?
    requires |RT.IdsOfKind(t.nodes, t.order, RT.Query)| == 1
    requires |RT.IdsOfKind(t.nodes, t.order, RT.Result)| == 0
    requires RT.ExtractInsights(t) == []
    ensures var r := Recorded(t, q, a, im, mint, now);
      && |RT.IdsOfKind(r.nodes, r.order, RT.Query)| == 1
      && |RT.IdsOfKind(r.nodes, r.order, RT.Result)| == 1
      && RT.ExtractInsights(r) == a.insights
  {
    RecordedKeepsQuery(t, q, a, im, mint, now);
    RecordedAddsResult(t, q, a, im, mint, now);
    RecordedInsightsAlone(t, q, a, im, mint, now);
  }

  /** `Finished` adds one RESULT id when the attempt raised. */
  lemma FinishedKinds(t: Tree, q: RT.NodeId, a: Attempt, mint: Mint, now: RT.Stamp, k: RT.NodeType)
    requires RT.Supplied(t, mint) && RT.Valid(t) && q in t.nodes
    ensures var r := Finished(t, q, a, mint, now);
      |RT.IdsOfKind(r.nodes, r.order, k)| ==
        |RT.IdsOfKind(t.nodes, t.order, k)| + (if a.error.Some? && k == RT.Result then 1 else 0)
  {
    if a.error.Some? {
      var r := RT.Grow(t, mint, ErrorPrefix + a.error.value, RT.Result, Some(q), ErrorMeta, now);
      assert Finished(t, q, a, mint, now) == r;
      var before := RT.IdsOfKind(t.nodes, t.order, k);
      var added: seq<RT.NodeId> := if k == RT.Result then [RT.NextId(t, mint)] else [];
      RT.GrowKinds(t, mint, ErrorPrefix + a.error.value, RT.Result, Some(q), ErrorMeta, now, k);
      assert RT.IdsOfKind(r.nodes, r.order, k) == before + added;
      assert |before + added| == |before| + |added|;
    }
  }

  /** `Finished` leaves the insights alone. */
  lemma FinishedInsights(t: Tree, q: RT.NodeId, a: Attempt, mint: Mint, now: RT.Stamp)
    requires RT.Supplied(t, mint) && RT.Valid(t) && q in t.nodes
    ensures RT.ExtractInsights(Finished(t, q, a, mint, now)) == RT.ExtractInsights(t)
  {
    if a.error.Some? {
      var content := ErrorPrefix + a.error.value;
      assert Finished(t, q, a, mint, now) == RT.Grow(t, mint, content, RT.Result, Some(q), ErrorMeta, now);
      ResultKeepsInsights(t, q, content, mint, now);
    }
  }

  lemma ResultKeepsInsights(t: Tree, q: RT.NodeId, content: string, mint: Mint, now: RT.Stamp)
    requires RT.Supplied(t, mint) && q in t.nodes
    ensures RT.ExtractInsights(RT.Grow(t, mint, content, RT.Result, Some(q), ErrorMeta, now)) == RT.ExtractInsights(t)
  {
    var x := RT.ExtractInsights(t);
    assert x + [] == x;
    RT.GrowInsights(t, mint, content, RT.Result, Some(q), ErrorMeta, now);
  }

  /** `Finished` changes no node other than `q`, and only appends the error
      RESULT's id to `q`'s children. */
  lemma FinishedFrame(t: Tree, q: RT.NodeId, a: Attempt, mint: Mint, now: RT.Stamp)
    requires RT.Supplied(t, mint) && RT.Valid(t) && q in t.nodes
    ensures var r := Finished(t, q, a, mint, now);
      && (forall x :: x in t.nodes && x != q ==> r.nodes[x] == t.nodes[x])
      && r.nodes[q] == t.nodes[q].(childrenIds := t.nodes[q].childrenIds +
                                    (if a.error.Some? then [r.order[|r.order| - 1]] else []))
      && (a.error.Some? ==>
            var e := r.order[|r.order| - 1];
            && e == RT.NextId(t, mint)
            && e in r.nodes
            && r.nodes[e] == RT.Node(e, RT.Result, ErrorPrefix + a.error.value,
                                     ErrorMeta[RT.CreatedAt := RT.Time(now)], Some(q), []))
  {
    if a.error.Some? {
      var e := RT.NextId(t, mint);
      var content := ErrorPrefix + a.error.value;
      assert Finished(t, q, a, mint, now) == RT.Grow(t, mint, content, RT.Result, Some(q), ErrorMeta, now);
      ErrorResultAdded(t, q, content, mint, now);
    } else {
      assert Finished(t, q, a, mint, now) == t;
    }
  }

  /** The error RESULT `add_node` appends is the last node, under `q`, and
      only `q` among the old nodes changes. */
  lemma ErrorResultAdded(t: Tree, q: RT.NodeId, content: string, mint: Mint, now: RT.Stamp)
    requires RT.Supplied(t, mint) && q in t.nodes
    ensures var r := RT.Grow(t, mint, content, RT.Result, Some(q), ErrorMeta, now);
      var e := RT.NextId(t, mint);
      && r.order[|r.order| - 1] == e && e in r.nodes
      && r.nodes[e] == RT.Node(e, RT.Result, content, ErrorMeta[RT.CreatedAt := RT.Time(now)], Some(q), [])
      && r.nodes[q] == t.nodes[q].(childrenIds := t.nodes[q].childrenIds + [e])
      && forall x :: x in t.nodes && x != q ==> r.nodes[x] == t.nodes[x]
  {
    var r := RT.Grow(t, mint, content, RT.Result, Some(q), ErrorMeta, now);
    assert r.order == t.order + [RT.NextId(t, mint)];
  }

  /** The tree has the root "Research: {query}", whose only child is the
      QUERY node holding the query; that QUERY node is the tree's only one. */
  lemma ResearchOpens(query: string, c: Collaborators, mint: Mint, now: RT.Stamp)
    requires RT.GoodMint(mint)
    ensures var t := Research(query, c, mint, now);
      && t.rootId == mint(0)
      && t.nodes[mint(0)].kind == RT.Root
      && t.nodes[mint(0)].content == "Research: " + query
      && t.nodes[mint(0)].childrenIds == [mint(1)]
      && t.nodes[mint(1)].kind == RT.Query
      && t.nodes[mint(1)].content == query
      && t.nodes[mint(1)].parentId == Some(mint(0))
      && |RT.IdsOfKind(t.nodes, t.order, RT.Query)| == 1
  {
    var t1 := Opened(query, mint, now);
    var a := Attempted(query, c);
    var t3 := Recorded(t1, mint(1), a, InsightMeta, mint, now);
    assert Research(query, c, mint, now) == Finished(t3, mint(1), a, mint, now);
    RecordedFrame(t1, mint(1), a, InsightMeta, mint, now);
    FinishedFrame(t3, mint(1), a, mint, now);
    ResearchOneQuery(query, c, mint, now);
  }

  /** The tree holds one QUERY node. */
  lemma ResearchOneQuery(query: string, c: Collaborators, mint: Mint, now: RT.Stamp)
    requires RT.GoodMint(mint)
    ensures var t := Research(query, c, mint, now);
      |RT.IdsOfKind(t.nodes, t.order, RT.Query)| == 1
  {
    var t1 := Opened(query, mint, now);
    var a := Attempted(query, c);
    var t3 := Recorded(t1, mint(1), a, InsightMeta, mint, now);
    assert Research(query, c, mint, now) == Finished(t3, mint(1), a, mint, now);
    OpenedKinds(query, mint, now, RT.Query);
    assert |RT.IdsOfKind(t3.nodes, t3.order, RT.Query)| == 1 by {
      RecordedKinds(t1, mint(1), a, InsightMeta, mint, now, RT.Query);
    }
    FinishedKinds(t3, mint(1), a, mint, now, RT.Query);
  }

  /** The starting tree holds no insights. */
  lemma OpenedInsights(query: string, mint: Mint, now: RT.Stamp)
    requires RT.GoodMint(mint)
    ensures RT.ExtractInsights(Opened(query, mint, now)) == []
  {
    OpenedKinds(query, mint, now, RT.Insight);
  }

  /** The insights of the tree an attempt leaves are its insights. */
  lemma AttemptInsights(query: string, a: Attempt, mint: Mint, now: RT.Stamp)
    requires RT.GoodMint(mint) && (a.insights != [] ==> a.result.Some?)
    ensures var t1 := Opened(query, mint, now);
      var t3 := Recorded(t1, mint(1), a, InsightMeta, mint, now);
      RT.ExtractInsights(Finished(t3, mint(1), a, mint, now)) == a.insights
  {
    var t1 := Opened(query, mint, now);
    var t3 := Recorded(t1, mint(1), a, InsightMeta, mint, now);
    var x1 := RT.ExtractInsights(t1);
    var x3 := RT.ExtractInsights(t3);
    OpenedInsights(query, mint, now);
    RecordedInsights(t1, mint(1), a, InsightMeta, mint, now);
    if a.result.Some? {
      assert x3 == x1 + a.insights;
      assert x1 + a.insights == a.insights;
    } else {
      assert x3 == x1 + [];
    }
    FinishedInsights(t3, mint(1), a, mint, now);
  }

  /** The tree's insights are the attempt's, at most five, in order. */
  lemma ResearchInsights(query: string, c: Collaborators, mint: Mint, now: RT.Stamp)
    requires RT.GoodMint(mint)
    ensures RT.ExtractInsights(Research(query, c, mint, now)) == Attempted(query, c).insights
  {
    AttemptInsights(query, Attempted(query, c), mint, now);
  }

  /** There is one RESULT for the written result and one for a raised
      exception. */
  lemma ResearchResultCount(query: string, c: Collaborators, mint: Mint, now: RT.Stamp)
    requires RT.GoodMint(mint)
    ensures var a := Attempted(query, c);
      |RT.GetResults(Research(query, c, mint, now))| ==
        (if a.result.Some? then 1 else 0) + (if a.error.Some? then 1 else 0)
  {
    var t1 := Opened(query, mint, now);
    var a := Attempted(query, c);
    var t3 := Recorded(t1, mint(1), a, InsightMeta, mint, now);
    assert Research(query, c, mint, now) == Finished(t3, mint(1), a, mint, now);
    OpenedKinds(query, mint, now, RT.Result);
    RecordedKinds(t1, mint(1), a, InsightMeta, mint, now, RT.Result);
    FinishedKinds(t3, mint(1), a, mint, now, RT.Result);
  }

  /** The QUERY node's children: the written result, then the error RESULT. */
  lemma ResearchQueryChildren(query: string, c: Collaborators, mint: Mint, now: RT.Stamp)
    requires RT.GoodMint(mint)
    ensures var t := Research(query, c, mint, now);
      var a := Attempted(query, c);
      t.nodes[mint(1)].childrenIds ==
        (if a.result.Some? then [mint(2)] else []) + (if a.error.Some? then [t.order[|t.order| - 1]] else [])
  {
    var t1 := Opened(query, mint, now);
    var a := Attempted(query, c);
    var t3 := Recorded(t1, mint(1), a, InsightMeta, mint, now);
    assert Research(query, c, mint, now) == Finished(t3, mint(1), a, mint, now);
    assert RT.NextId(t1, mint) == mint(2);
    RecordedChildren(t1, mint(1), a, InsightMeta, mint, now);
    FinishedFrame(t3, mint(1), a, mint, now);
  }

  /** A node without children gets the RESULT as its only child. */
  lemma RecordedChildren(t: Tree, q: RT.NodeId, a: Attempt, im: RT.Metadata, mint: Mint, now: RT.Stamp)
    requires RT.Supplied(t, mint) && RT.Valid(t) && q in t.nodes && t.nodes[q].childrenIds == []
    ensures Recorded(t, q, a, im, mint, now).nodes[q].childrenIds ==
              (if a.result.Some? then [RT.NextId(t, mint)] else [])
  {
    RecordedFrame(t, q, a, im, mint, now);
    var written: seq<RT.NodeId> := if a.result.Some? then [RT.NextId(t, mint)] else [];
    assert [] + written == written;
  }

  /** When the attempt raised, the last node is the RESULT carrying the
      message, under the QUERY node. */
  lemma ResearchErrorNode(query: string, c: Collaborators, mint: Mint, now: RT.Stamp)
    requires RT.GoodMint(mint) && Attempted(query, c).error.Some?
    ensures var t := Research(query, c, mint, now);
      var e := t.order[|t.order| - 1];
      && e in t.nodes
      && t.nodes[e] == RT.Node(e, RT.Result, ErrorPrefix + Attempted(query, c).error.value,
                               ErrorMeta[RT.CreatedAt := RT.Time(now)], Some(mint(1)), [])
  {
    var t1 := Opened(query, mint, now);
    var a := Attempted(query, c);
    var t3 := Recorded(t1, mint(1), a, InsightMeta, mint, now);
    assert Research(query, c, mint, now) == Finished(t3, mint(1), a, mint, now);
    FinishedFrame(t3, mint(1), a, mint, now);
  }

  /** When the attempt wrote a result, it is the node after the QUERY node,
      a RESULT under it whose children are the insights in order. */
  lemma ResearchResultNode(query: string, c: Collaborators, mint: Mint, now: RT.Stamp)
    requires RT.GoodMint(mint) && Attempted(query, c).result.Some?
    ensures var t := Research(query, c, mint, now);
      var a := Attempted(query, c);
      && mint(2) in t.nodes
      && t.nodes[mint(2)].kind == RT.Result
      && t.nodes[mint(2)].content == a.result.value.0
      && t.nodes[mint(2)].parentId == Some(mint(1))
      && AllHold(t, t.nodes[mint(2)].childrenIds, a.insights)
  {
    var t1 := Opened(query, mint, now);
    var a := Attempted(query, c);
    var t3 := Recorded(t1, mint(1), a, InsightMeta, mint, now);
    var t := Finished(t3, mint(1), a, mint, now);
    assert Research(query, c, mint, now) == t;
    assert RT.NextId(t1, mint) == mint(2);
    RecordedResult(t1, mint(1), a, InsightMeta, mint, now);
    assert mint(2) != mint(1);
    FinishedKeepsNode(t3, mint(1), a, mint, now, mint(2));
    FinishedKeepsContents(t3, mint(1), a, mint, now);
    HoldKept(t3, t, t3.nodes[mint(2)].childrenIds, a.insights);
  }

  /** `Finished` leaves every node but `q` as it was. */
  lemma FinishedKeepsNode(t: Tree, q: RT.NodeId, a: Attempt, mint: Mint, now: RT.Stamp, x: RT.NodeId)
    requires RT.Supplied(t, mint) && RT.Valid(t) && q in t.nodes && x in t.nodes && x != q
    ensures var r := Finished(t, q, a, mint, now);
      x in r.nodes && r.nodes[x] == t.nodes[x]
  {
    FinishedFrame(t, q, a, mint, now);
  }

  /** `Finished` keeps every node's type and content. */
  lemma FinishedKeepsContents(t: Tree, q: RT.NodeId, a: Attempt, mint: Mint, now: RT.Stamp)
    requires RT.Supplied(t, mint) && RT.Valid(t) && q in t.nodes
    ensures var r := Finished(t, q, a, mint, now);
      forall x :: x in t.nodes ==>
        x in r.nodes && r.nodes[x].kind == t.nodes[x].kind && r.nodes[x].content == t.nodes[x].content
  {
    var r := Finished(t, q, a, mint, now);
    FinishedFrame(t, q, a, mint, now);
    forall x | x in t.nodes
      ensures x in r.nodes && r.nodes[x].kind == t.nodes[x].kind && r.nodes[x].content == t.nodes[x].content
    {
      if x != q {
        assert r.nodes[x] == t.nodes[x];
      }
    }
  }

  /** `AllHold` survives any change that keeps every node's type and
      content. */
  lemma HoldKept(a: Tree, b: Tree, ids: seq<RT.NodeId>, insights: seq<string>)
    requires forall x :: x in a.nodes ==> x in b.nodes && b.nodes[x].kind == a.nodes[x].kind && b.nodes[x].content == a.nodes[x].content
    requires AllHold(a, ids, insights)
    ensures AllHold(b, ids, insights)
  {
    forall m | 0 <= m < |insights| ensures ChildHolds(b, ids[m], insights[m]) {
      assert ChildHolds(a, ids[m], insights[m]);
    }
  }

  /** Direct mode without a raised exception: the RESULT holds the search
      hits, and the insights are the first five the extractor lists. */
  lemma DirectResearch(query: string, c: Collaborators, hits: seq<SearchHit>, xs: seq<string>)
    requires c.agent.None? && c.context(query).Ok? && c.search(query) == Ok(hits)
    requires c.extract(DirectOutput(query, hits), query) == Listed(xs)
    ensures Attempted(query, c) == Attempt(Some((DirectOutput(query, hits), DirectMeta)), Prefix(xs, 5), None)
  {
  }

  /** Direct mode when the web search raises, which is what the call with a
      `max_results` keyword does: the tree holds only the error RESULT, with
      the raised message, and no insights. */
  lemma DirectSearchRaises(query: string, c: Collaborators, msg: string, mint: Mint, now: RT.Stamp)
    requires RT.GoodMint(mint)
    requires c.agent.None? && c.context(query).Ok? && c.search(query) == Err(msg)
    ensures Attempted(query, c) == Attempt(None, [], Some(msg))
    ensures var t := Research(query, c, mint, now);
      var e := t.order[|t.order| - 1];
      && RT.ExtractInsights(t) == []
      && |RT.GetResults(t)| == 1
      && e in t.nodes && t.nodes[e].kind == RT.Result && t.nodes[e].content == ErrorPrefix + msg
  {
    ResearchInsights(query, c, mint, now);
    ResearchResultCount(query, c, mint, now);
    ResearchErrorNode(query, c, mint, now);
  }

  // ---------------------------------------------------------------------
  // deep_research

  /** Adds one INSIGHT under `parent` per node of `ns`, in order, with that
      node's content and metadata; the stamp is renewed. */
  function CopyInsights(t: Tree, mint: Mint, ns: seq<RT.Node>, parent: RT.NodeId, now: RT.Stamp): (r: Tree)
    requires RT.Supplied(t, mint) && parent in t.nodes
    ensures RT.Supplied(r, mint)
    ensures r.rootId == t.rootId && t.nodes.Keys <= r.nodes.Keys
    ensures |r.order| == |t.order| + |ns|
    decreases |ns|
  {
    if ns == [] then t
    else
      var t1 := CopyInsights(t, mint, ns[..|ns| - 1], parent, now);
      var n := ns[|ns| - 1];
      RT.Grow(t1, mint, n.content, RT.Insight, Some(parent), n.metadata, now)
  }

  lemma {:induction false} CopyInsightsKeepsValid(t: Tree, mint: Mint, ns: seq<RT.Node>, parent: RT.NodeId, now: RT.Stamp)
    requires RT.Supplied(t, mint) && RT.Valid(t) && parent in t.nodes
    ensures RT.Valid(CopyInsights(t, mint, ns, parent, now))
    decreases |ns|
  {
    if ns != [] {
      var t1 := CopyInsights(t, mint, ns[..|ns| - 1], parent, now);
      CopyInsightsKeepsValid(t, mint, ns[..|ns| - 1], parent, now);
      var n := ns[|ns| - 1];
      RT.GrowKeepsValid(t1, mint, n.content, RT.Insight, Some(parent), n.metadata, now);
    }
  }

  /** The copies extend the tree's insights by the copied contents. */
  lemma {:induction false} CopyInsightsExtends(t: Tree, mint: Mint, ns: seq<RT.Node>, parent: RT.NodeId, now: RT.Stamp)
    requires RT.Supplied(t, mint) && parent in t.nodes
    ensures RT.ExtractInsights(CopyInsights(t, mint, ns, parent, now)) ==
              RT.ExtractInsights(t) + RT.ContentsOf(ns)
    decreases |ns|
  {
    if ns == [] {
      var x := RT.ExtractInsights(t);
      assert x + [] == x;
      assert RT.ContentsOf(ns) == [];
    } else {
      var init := ns[..|ns| - 1];
      var n := ns[|ns| - 1];
      var x := RT.ExtractInsights(t);
      var ci := RT.ContentsOf(init);
      assert RT.ContentsOf(ns) == ci + [n.content];
      AppendAssoc(x, ci, [n.content]);
      CopyInsightsExtends(t, mint, init, parent, now);
      var t1 := CopyInsights(t, mint, init, parent, now);
      RT.GrowInsights(t1, mint, n.content, RT.Insight, Some(parent), n.metadata, now);
    }
  }

  /** The last node is copied by a single `add_node` on the tree holding
      the other copies. */
  lemma CopyInsightsStep(t: Tree, mint: Mint, ns: seq<RT.Node>, parent: RT.NodeId, now: RT.Stamp)
    requires RT.Supplied(t, mint) && parent in t.nodes && ns != []
    ensures var t1 := CopyInsights(t, mint, ns[..|ns| - 1], parent, now);
      var n := ns[|ns| - 1];
      && RT.Supplied(t1, mint) && parent in t1.nodes
      && RT.Fresh(t1, RT.NextId(t1, mint))
      && RT.AddNode(t1, RT.NextId(t1, mint), n.content, RT.Insight, Some(parent), n.metadata, now).Ok?
      && CopyInsights(t, mint, ns, parent, now) ==
         RT.AddNode(t1, RT.NextId(t1, mint), n.content, RT.Insight, Some(parent), n.metadata, now).value
  {
    var t1 := CopyInsights(t, mint, ns[..|ns| - 1], parent, now);
    var n := ns[|ns| - 1];
    assert CopyInsights(t, mint, ns, parent, now) == RT.Grow(t1, mint, n.content, RT.Insight, Some(parent), n.metadata, now);
  }

  /** The copies leave every node other than `parent` as it was. */
  lemma {:induction false} CopyInsightsKeepsOthers(t: Tree, mint: Mint, ns: seq<RT.Node>, parent: RT.NodeId, now: RT.Stamp)
    requires RT.Supplied(t, mint) && parent in t.nodes
    ensures var r := CopyInsights(t, mint, ns, parent, now);
      forall x :: x in t.nodes && x != parent ==> r.nodes[x] == t.nodes[x]
    decreases |ns|
  {
    if ns != [] {
      var init := ns[..|ns| - 1];
      CopyInsightsKeepsOthers(t, mint, init, parent, now);
      var t1 := CopyInsights(t, mint, init, parent, now);
      var id := RT.NextId(t1, mint);
      var r := CopyInsights(t, mint, ns, parent, now);
      CopyInsightsStep(t, mint, ns, parent, now);
      forall x | x in t.nodes && x != parent
        ensures r.nodes[x] == t.nodes[x]
      {
        assert x in t1.nodes && r.nodes[x] == t1.nodes[x];
      }
    }
  }

  /** `parent`'s child list gains the ids of the copies, in order. */
  lemma {:induction false} CopyInsightsParent(t: Tree, mint: Mint, ns: seq<RT.Node>, parent: RT.NodeId, now: RT.Stamp)
    requires RT.Supplied(t, mint) && parent in t.nodes
    ensures var r := CopyInsights(t, mint, ns, parent, now);
      r.nodes[parent] == t.nodes[parent].(childrenIds := t.nodes[parent].childrenIds + r.order[|t.order|..])
    decreases |ns|
  {
    if ns != [] {
      var init := ns[..|ns| - 1];
      CopyInsightsParent(t, mint, init, parent, now);
      var t1 := CopyInsights(t, mint, init, parent, now);
      var id := RT.NextId(t1, mint);
      var r := CopyInsights(t, mint, ns, parent, now);
      CopyInsightsStep(t, mint, ns, parent, now);
      assert r.order == t1.order + [id];
      SliceAppend(t1.order, id, |t.order|);
      AppendAssoc(t.nodes[parent].childrenIds, t1.order[|t.order|..], [id]);
    }
  }

  /** The nodes inserted after position `base` are INSIGHT nodes under
      `parent` holding the contents and metadata of `ns`, in order. */
  ghost predicate Copied(r: Tree, base: nat, ns: seq<RT.Node>, parent: RT.NodeId, now: RT.Stamp) {
    && |r.order| == base + |ns|
    && forall k :: base <= k < |r.order| ==>
         && r.order[k] in r.nodes
         && r.nodes[r.order[k]] ==
              RT.Node(r.order[k], RT.Insight, ns[k - base].content,
                      ns[k - base].metadata[RT.CreatedAt := RT.Time(now)], Some(parent), [])
  }

  /** Each copy is a new INSIGHT under `parent` holding its node's content
      and metadata, in order. */
  lemma {:induction false} CopyInsightsNew(t: Tree, mint: Mint, ns: seq<RT.Node>, parent: RT.NodeId, now: RT.Stamp)
    requires RT.Supplied(t, mint) && parent in t.nodes
    ensures Copied(CopyInsights(t, mint, ns, parent, now), |t.order|, ns, parent, now)
    decreases |ns|
  {
    if ns != [] {
      var init := ns[..|ns| - 1];
      CopyInsightsNew(t, mint, init, parent, now);
      CopyInsightsStep(t, mint, ns, parent, now);
      CopiedGrow(t, CopyInsights(t, mint, init, parent, now), mint, ns, parent, now);
    }
  }

  /** One more copy extends what has been copied. */
  lemma CopiedGrow(t: Tree, t1: Tree, mint: Mint, ns: seq<RT.Node>, parent: RT.NodeId, now: RT.Stamp)
    requires RT.Supplied(t, mint) && RT.Supplied(t1, mint) && parent in t.nodes && ns != []
    requires Copied(t1, |t.order|, ns[..|ns| - 1], parent, now)
    requires RT.Fresh(t1, RT.NextId(t1, mint))
    requires RT.AddNode(t1, RT.NextId(t1, mint), ns[|ns| - 1].content, RT.Insight, Some(parent), ns[|ns| - 1].metadata, now).Ok?
    ensures Copied(RT.AddNode(t1, RT.NextId(t1, mint), ns[|ns| - 1].content, RT.Insight, Some(parent), ns[|ns| - 1].metadata, now).value,
                   |t.order|, ns, parent, now)
  {
    var id := RT.NextId(t1, mint);
    var init := ns[..|ns| - 1];
    var n := ns[|ns| - 1];
    var r := RT.AddNode(t1, id, n.content, RT.Insight, Some(parent), n.metadata, now).value;
    assert r.order == t1.order + [id];
    forall k | |t.order| <= k < |r.order|
      ensures && r.order[k] in r.nodes
              && r.nodes[r.order[k]] ==
                   RT.Node(r.order[k], RT.Insight, ns[k - |t.order|].content,
                           ns[k - |t.order|].metadata[RT.CreatedAt := RT.Time(now)], Some(parent), [])
    {
      if k < |t1.order| {
        var x := t1.order[k];
        assert r.order[k] == x;
        assert x != parent by {
          RT.SuppliedLater(t, t1, mint, k);
        }
        assert r.nodes[x] == t1.nodes[x];
        assert ns[k - |t.order|] == init[k - |t.order|];
      } else {
        assert r.order[k] == id;
        assert r.nodes[id] == RT.Node(id, RT.Insight, n.content, n.metadata[RT.CreatedAt := RT.Time(now)], Some(parent), []);
      }
    }
  }

  /** The follow-up copies add `|ns|` INSIGHT ids and no other ids. */
  lemma {:induction false} CopyInsightsKinds(t: Tree, mint: Mint, ns: seq<RT.Node>, parent: RT.NodeId, now: RT.Stamp, k: RT.NodeType)
    requires RT.Supplied(t, mint) && parent in t.nodes
    ensures var r := CopyInsights(t, mint, ns, parent, now);
      |RT.IdsOfKind(r.nodes, r.order, k)| == |RT.IdsOfKind(t.nodes, t.order, k)| + (if k == RT.Insight then |ns| else 0)
    decreases |ns|
  {
    if ns != [] {
      var init := ns[..|ns| - 1];
      var n := ns[|ns| - 1];
      CopyInsightsKinds(t, mint, init, parent, now, k);
      var t1 := CopyInsights(t, mint, init, parent, now);
      RT.GrowKinds(t1, mint, n.content, RT.Insight, Some(parent), n.metadata, now, k);
    }
  }

  function FollowUpMeta(i: nat): RT.Metadata {
    map["type" := RT.Str("follow_up"), "index" := RT.Num(i)]
  }

  /** One round of the follow-up loop: the `i`-th follow-up question as a
      QUERY under the root, and the insights of the tree researched for it
      copied under that QUERY. */
  function FollowUp(t: Tree, mint: Mint, question: string, i: nat, sub: Tree, now: RT.Stamp): (r: Tree)
    requires RT.Supplied(t, mint) && RT.Valid(t) && t.rootId in t.nodes
    ensures RT.Supplied(r, mint) && RT.Valid(r)
    ensures r.rootId == t.rootId && t.nodes.Keys <= r.nodes.Keys
  {
    var q := RT.NextId(t, mint);
    var t1 := RT.Grow(t, mint, question, RT.Query, None, FollowUpMeta(i), now);
    RT.GrowKeepsValid(t, mint, question, RT.Query, None, FollowUpMeta(i), now);
    CopyInsightsKeepsValid(t1, mint, RT.GetInsights(sub), q, now);
    CopyInsights(t1, mint, RT.GetInsights(sub), q, now)
  }

  /** `q` is the QUERY node of the `i`-th follow-up question: under the
      root, tagged with its index, its children the INSIGHT nodes holding
      `insights` in order. */
  ghost predicate Asked(t: Tree, q: RT.NodeId, question: string, i: nat, insights: seq<string>, now: RT.Stamp) {
    && q in t.nodes
    && q != t.rootId
    && t.nodes[q].kind == RT.Query
    && t.nodes[q].content == question
    && t.nodes[q].parentId == Some(t.rootId)
    && t.nodes[q].metadata == FollowUpMeta(i)[RT.CreatedAt := RT.Time(now)]
    && AllHold(t, t.nodes[q].childrenIds, insights)
  }

  /** The ids are INSIGHT nodes holding `insights`, in order. */
  ghost predicate AllHold(t: Tree, ids: seq<RT.NodeId>, insights: seq<string>) {
    && |ids| == |insights|
    && forall m :: 0 <= m < |insights| ==> ChildHolds(t, ids[m], insights[m])
  }

  ghost predicate ChildHolds(t: Tree, c: RT.NodeId, insight: string) {
    c in t.nodes && t.nodes[c].kind == RT.Insight && t.nodes[c].content == insight
  }

  /** A round changes no node but the root, whose children gain the new
      QUERY node. */
  lemma FollowUpFrame(t: Tree, mint: Mint, question: string, i: nat, sub: Tree, now: RT.Stamp)
    requires RT.Supplied(t, mint) && RT.Valid(t) && t.rootId in t.nodes
    ensures var r := FollowUp(t, mint, question, i, sub, now);
      && (forall x :: x in t.nodes && x != t.rootId ==> r.nodes[x] == t.nodes[x])
      && r.nodes[t.rootId] == t.nodes[t.rootId].(childrenIds := t.nodes[t.rootId].childrenIds + [RT.NextId(t, mint)])
  {
    var q := RT.NextId(t, mint);
    var t1 := RT.Grow(t, mint, question, RT.Query, None, FollowUpMeta(i), now);
    assert q in t1.nodes && q != t.rootId;
    CopyInsightsKeepsOthers(t1, mint, RT.GetInsights(sub), q, now);
  }

  /** Nodes added after position `base`, read in order, that hold the
      contents of `ns`. */
  lemma AddedHold(r: Tree, base: nat, ns: seq<RT.Node>, parent: RT.NodeId, now: RT.Stamp)
    requires base <= |r.order| && Copied(r, base, ns, parent, now)
    ensures AllHold(r, r.order[base..], RT.ContentsOf(ns))
  {
    var added := r.order[base..];
    forall m | 0 <= m < |ns|
      ensures ChildHolds(r, added[m], RT.ContentsOf(ns)[m])
    {
      var k := base + m;
      assert added[m] == r.order[k];
      assert RT.ContentsOf(ns)[m] == ns[m].content;
    }
  }

  /** The new QUERY node of a round is the `i`-th follow-up, holding the
      researched tree's insights. */
  lemma FollowUpAsked(t: Tree, mint: Mint, question: string, i: nat, sub: Tree, now: RT.Stamp)
    requires RT.Supplied(t, mint) && RT.Valid(t) && t.rootId in t.nodes
    ensures Asked(FollowUp(t, mint, question, i, sub, now), RT.NextId(t, mint), question, i, RT.ExtractInsights(sub), now)
  {
    var q := RT.NextId(t, mint);
    var t1 := RT.Grow(t, mint, question, RT.Query, None, FollowUpMeta(i), now);
    var ns := RT.GetInsights(sub);
    var r := CopyInsights(t1, mint, ns, q, now);
    var added := r.order[|t1.order|..];
    assert [] + added == added;
    assert RT.ContentsOf(ns) == RT.ExtractInsights(sub);
    assert FollowUp(t, mint, question, i, sub, now) == r;
    assert t1.nodes[q] == RT.Node(q, RT.Query, question, FollowUpMeta(i)[RT.CreatedAt := RT.Time(now)], Some(t.rootId), []);
    CopyInsightsParent(t1, mint, ns, q, now);
    CopyInsightsNew(t1, mint, ns, q, now);
    AddedHold(r, |t1.order|, ns, q, now);
  }

  /** The insights after a round: the old ones, then the researched tree's. */
  lemma FollowUpInsights(t: Tree, mint: Mint, question: string, i: nat, sub: Tree, now: RT.Stamp)
    requires RT.Supplied(t, mint) && RT.Valid(t) && t.rootId in t.nodes
    ensures RT.ExtractInsights(FollowUp(t, mint, question, i, sub, now)) == RT.ExtractInsights(t) + RT.ExtractInsights(sub)
  {
    var q := RT.NextId(t, mint);
    var t1 := RT.Grow(t, mint, question, RT.Query, None, FollowUpMeta(i), now);
    var ns := RT.GetInsights(sub);
    var x := RT.ExtractInsights(t);
    assert x + [] == x;
    assert RT.ContentsOf(ns) == RT.ExtractInsights(sub);
    RT.GrowInsights(t, mint, question, RT.Query, None, FollowUpMeta(i), now);
    CopyInsightsExtends(t1, mint, ns, q, now);
  }

  /** A round adds one QUERY id and one INSIGHT id per copied insight. */
  lemma FollowUpKinds(t: Tree, mint: Mint, question: string, i: nat, sub: Tree, now: RT.Stamp, k: RT.NodeType)
    requires RT.Supplied(t, mint) && RT.Valid(t) && t.rootId in t.nodes
    ensures var r := FollowUp(t, mint, question, i, sub, now);
      |RT.IdsOfKind(r.nodes, r.order, k)| ==
        |RT.IdsOfKind(t.nodes, t.order, k)| + (if k == RT.Query then 1 else 0)
        + (if k == RT.Insight then |RT.ExtractInsights(sub)| else 0)
  {
    var q := RT.NextId(t, mint);
    var t1 := RT.Grow(t, mint, question, RT.Query, None, FollowUpMeta(i), now);
    RT.GrowKinds(t, mint, question, RT.Query, None, FollowUpMeta(i), now, k);
    CopyInsightsKinds(t1, mint, RT.GetInsights(sub), q, now, k);
  }

  /** The follow-up loop of `deep_research`, round by round. Each question
      is researched on a tree of its own. */
  function Merge(t: Tree, mint: Mint, fs: seq<string>, c: Collaborators, now: RT.Stamp): (r: Tree)
    requires RT.Supplied(t, mint) && RT.Valid(t) && t.rootId in t.nodes
    ensures RT.Supplied(r, mint) && RT.Valid(r)
    ensures r.rootId == t.rootId && t.nodes.Keys <= r.nodes.Keys
    decreases |fs|
  {
    if fs == [] then t
    else
      var n := |fs| - 1;
      var t1 := Merge(t, mint, fs[..n], c, now);
      FollowUp(t1, mint, fs[n], n, Research(fs[n], c, mint, now), now)
  }

  /** The insights each follow-up question's research yields, question
      after question. */
  function FollowUpYield(fs: seq<string>, c: Collaborators): seq<string>
    decreases |fs|
  {
    if fs == [] then [] else FollowUpYield(fs[..|fs| - 1], c) + Attempted(fs[|fs| - 1], c).insights
  }

  /** The merged tree's insights: the main research's, then every
      follow-up's, in question order. */
  lemma {:induction false} MergeInsights(t: Tree, mint: Mint, fs: seq<string>, c: Collaborators, now: RT.Stamp)
    requires RT.Supplied(t, mint) && RT.Valid(t) && t.rootId in t.nodes
    ensures RT.ExtractInsights(Merge(t, mint, fs, c, now)) == RT.ExtractInsights(t) + FollowUpYield(fs, c)
    decreases |fs|
  {
    var x := RT.ExtractInsights(t);
    if fs == [] {
      assert x + [] == x;
    } else {
      var n := |fs| - 1;
      var init := fs[..n];
      assert init == fs[..|fs| - 1];
      var ys := FollowUpYield(init, c);
      var zs := Attempted(fs[n], c).insights;
      AppendAssoc(x, ys, zs);
      MergeInsights(t, mint, init, c, now);
      var t1 := Merge(t, mint, init, c, now);
      var sub := Research(fs[n], c, mint, now);
      ResearchInsights(fs[n], c, mint, now);
      FollowUpInsights(t1, mint, fs[n], n, sub, now);
    }
  }

  /** The merge changes no node but the root. */
  lemma {:induction false} MergeFrame(t: Tree, mint: Mint, fs: seq<string>, c: Collaborators, now: RT.Stamp)
    requires RT.Supplied(t, mint) && RT.Valid(t) && t.rootId in t.nodes
    ensures var r := Merge(t, mint, fs, c, now);
      && (forall x :: x in t.nodes && x != t.rootId ==> r.nodes[x] == t.nodes[x])
      && r.nodes[t.rootId].kind == t.nodes[t.rootId].kind
      && r.nodes[t.rootId].content == t.nodes[t.rootId].content
    decreases |fs|
  {
    if fs != [] {
      var n := |fs| - 1;
      MergeFrame(t, mint, fs[..n], c, now);
      var t1 := Merge(t, mint, fs[..n], c, now);
      FollowUpFrame(t1, mint, fs[n], n, Research(fs[n], c, mint, now), now);
    }
  }

  /** `Asked` survives any change that leaves the non-root nodes alone and
      keeps the root's type and content. */
  lemma AskedKept(a: Tree, b: Tree, q: RT.NodeId, question: string, i: nat, insights: seq<string>, now: RT.Stamp)
    requires a.rootId == b.rootId && a.rootId in a.nodes && a.rootId in b.nodes
    requires forall x :: x in a.nodes && x != a.rootId ==> x in b.nodes && b.nodes[x] == a.nodes[x]
    requires b.nodes[a.rootId].kind == a.nodes[a.rootId].kind
    requires b.nodes[a.rootId].content == a.nodes[a.rootId].content
    requires Asked(a, q, question, i, insights, now)
    ensures Asked(b, q, question, i, insights, now)
  {
    var ids := a.nodes[q].childrenIds;
    forall m | 0 <= m < |insights|
      ensures ChildHolds(b, ids[m], insights[m])
    {
      assert ChildHolds(a, ids[m], insights[m]);
    }
  }

  /** After the merge the root's children are the old ones followed by one
      QUERY node per follow-up question, in order, each tagged with its
      index and holding that question's insights. */
  ghost predicate FollowUpsAsked(t: Tree, r: Tree, fs: seq<string>, c: Collaborators, now: RT.Stamp) {
    && t.rootId in t.nodes
    && r.rootId in r.nodes
    && var before := t.nodes[t.rootId].childrenIds;
       var after := r.nodes[r.rootId].childrenIds;
       && |after| == |before| + |fs|
       && after[..|before|] == before
       && forall j :: 0 <= j < |fs| ==> Asked(r, after[|before| + j], fs[j], j, Attempted(fs[j], c).insights, now)
  }

  /** One more round keeps the earlier follow-ups asked and adds the next. */
  lemma FollowUpsAskedStep(t: Tree, t1: Tree, r: Tree, q: RT.NodeId, fs: seq<string>, c: Collaborators, now: RT.Stamp)
    requires fs != []
    requires t1.rootId == t.rootId && r.rootId == t.rootId && t1.rootId in t1.nodes && r.rootId in r.nodes
    requires FollowUpsAsked(t, t1, fs[..|fs| - 1], c, now)
    requires forall x :: x in t1.nodes && x != t.rootId ==> x in r.nodes && r.nodes[x] == t1.nodes[x]
    requires r.nodes[t.rootId] == t1.nodes[t.rootId].(childrenIds := t1.nodes[t.rootId].childrenIds + [q])
    requires Asked(r, q, fs[|fs| - 1], |fs| - 1, Attempted(fs[|fs| - 1], c).insights, now)
    ensures FollowUpsAsked(t, r, fs, c, now)
  {
    var n := |fs| - 1;
    var init := fs[..n];
    var before := t.nodes[t.rootId].childrenIds;
    var mid := t1.nodes[t.rootId].childrenIds;
    var after := r.nodes[t.rootId].childrenIds;
    assert after == mid + [q];
    assert after[..|before|] == mid[..|before|];
    forall j | 0 <= j < |fs|
      ensures Asked(r, after[|before| + j], fs[j], j, Attempted(fs[j], c).insights, now)
    {
      if j < n {
        assert init[j] == fs[j];
        assert after[|before| + j] == mid[|before| + j];
        AskedKept(t1, r, mid[|before| + j], fs[j], j, Attempted(fs[j], c).insights, now);
      } else {
        assert after[|before| + j] == q;
      }
    }
  }

  /** The follow-up questions each become a QUERY child of the root, after
      the root's old children, in question order. */
  lemma {:induction false} MergeAsks(t: Tree, mint: Mint, fs: seq<string>, c: Collaborators, now: RT.Stamp)
    requires RT.Supplied(t, mint) && RT.Valid(t) && t.rootId in t.nodes
    ensures FollowUpsAsked(t, Merge(t, mint, fs, c, now), fs, c, now)
    decreases |fs|
  {
    if fs == [] {
      assert Merge(t, mint, fs, c, now) == t;
      NoFollowUpsAsked(t, c, now);
    } else {
      var n := |fs| - 1;
      var init := fs[..n];
      MergeAsks(t, mint, init, c, now);
      var t1 := Merge(t, mint, init, c, now);
      assert Merge(t, mint, fs, c, now) == FollowUp(t1, mint, fs[n], n, Research(fs[n], c, mint, now), now);
      FollowUpRound(t, t1, mint, fs, c, now);
    }
  }

  lemma NoFollowUpsAsked(t: Tree, c: Collaborators, now: RT.Stamp)
    requires t.rootId in t.nodes
    ensures FollowUpsAsked(t, t, [], c, now)
  {
    var before := t.nodes[t.rootId].childrenIds;
    assert before[..|before|] == before;
  }

  /** A round on a tree that has asked the earlier questions asks them all. */
  lemma FollowUpRound(t: Tree, t1: Tree, mint: Mint, fs: seq<string>, c: Collaborators, now: RT.Stamp)
    requires RT.Supplied(t1, mint) && RT.Valid(t1) && t1.rootId in t1.nodes && t1.rootId == t.rootId
    requires fs != [] && FollowUpsAsked(t, t1, fs[..|fs| - 1], c, now)
    ensures FollowUpsAsked(t, FollowUp(t1, mint, fs[|fs| - 1], |fs| - 1, Research(fs[|fs| - 1], c, mint, now), now), fs, c, now)
  {
    var n := |fs| - 1;
    var sub := Research(fs[n], c, mint, now);
    var r := FollowUp(t1, mint, fs[n], n, sub, now);
    FollowUpFrame(t1, mint, fs[n], n, sub, now);
    FollowUpAsked(t1, mint, fs[n], n, sub, now);
    ResearchInsights(fs[n], c, mint, now);
    FollowUpsAskedStep(t, t1, r, RT.NextId(t1, mint), fs, c, now);
  }

  /** The merge adds one QUERY id per follow-up question and one INSIGHT
      id per copied insight. */
  lemma {:induction false} MergeKinds(t: Tree, mint: Mint, fs: seq<string>, c: Collaborators, now: RT.Stamp, k: RT.NodeType)
    requires RT.Supplied(t, mint) && RT.Valid(t) && t.rootId in t.nodes
    ensures var r := Merge(t, mint, fs, c, now);
      |RT.IdsOfKind(r.nodes, r.order, k)| ==
        |RT.IdsOfKind(t.nodes, t.order, k)| + (if k == RT.Query then |fs| else 0)
        + (if k == RT.Insight then |FollowUpYield(fs, c)| else 0)
    decreases |fs|
  {
    if fs != [] {
      var n := |fs| - 1;
      var init := fs[..n];
      assert init == fs[..|fs| - 1];
      MergeKinds(t, mint, init, c, now, k);
      var t1 := Merge(t, mint, init, c, now);
      var sub := Research(fs[n], c, mint, now);
      ResearchInsights(fs[n], c, mint, now);
      FollowUpKinds(t1, mint, fs[n], n, sub, now, k);
    }
  }

  /** The merge adds one QUERY id per follow-up question. */
  lemma MergeQueries(t: Tree, mint: Mint, fs: seq<string>, c: Collaborators, now: RT.Stamp)
    requires RT.Supplied(t, mint) && RT.Valid(t) && t.rootId in t.nodes
    ensures var r := Merge(t, mint, fs, c, now);
      |RT.IdsOfKind(r.nodes, r.order, RT.Query)| == |RT.IdsOfKind(t.nodes, t.order, RT.Query)| + |fs|
  {
    MergeKinds(t, mint, fs, c, now, RT.Query);
  }

  /** What `deep_research` leaves behind: the merged tree it returns, and
      the agent's current tree, which each `research` call replaces and
      which is therefore the last follow-up's own tree. */
  datatype DeepOutcome = DeepOutcome(merged: Tree, current: Tree)

  /** `deep_research(query, follow_up_questions)`. */
  function DeepResearch(query: string, fs: seq<string>, c: Collaborators, mint: Mint, now: RT.Stamp): (o: DeepOutcome)
    requires RT.GoodMint(mint)
    ensures RT.Supplied(o.merged, mint) && RT.Valid(o.merged) && RT.Valid(o.current)
    ensures fs == [] ==> o.current == o.merged
  {
    var main := Research(query, c, mint, now);
    var merged := Merge(main, mint, fs, c, now);
    DeepOutcome(merged, if fs == [] then merged else Research(fs[|fs| - 1], c, mint, now))
  }

  /** With follow-up questions the agent's current tree holds the last
      question's insights only. */
  lemma DeepResearchCurrent(query: string, fs: seq<string>, c: Collaborators, mint: Mint, now: RT.Stamp)
    requires RT.GoodMint(mint) && fs != []
    ensures RT.ExtractInsights(DeepResearch(query, fs, c, mint, now).current) == Attempted(fs[|fs| - 1], c).insights
  {
    ResearchInsights(fs[|fs| - 1], c, mint, now);
  }

  /** The merged tree holds the main query's insights, then every
      follow-up's, in question order. */
  lemma DeepResearchInsights(query: string, fs: seq<string>, c: Collaborators, mint: Mint, now: RT.Stamp)
    requires RT.GoodMint(mint)
    ensures RT.ExtractInsights(DeepResearch(query, fs, c, mint, now).merged) ==
              Attempted(query, c).insights + FollowUpYield(fs, c)
  {
    var main := Research(query, c, mint, now);
    assert DeepResearch(query, fs, c, mint, now).merged == Merge(main, mint, fs, c, now);
    ResearchInsights(query, c, mint, now);
    MergeInsights(main, mint, fs, c, now);
  }

  /** The merged tree's root lists the main research's children (its
      QUERY node) first and then one QUERY node per follow-up question, in
      order. */
  lemma DeepResearchQueries(query: string, fs: seq<string>, c: Collaborators, mint: Mint, now: RT.Stamp)
    requires RT.GoodMint(mint)
    ensures var t := DeepResearch(query, fs, c, mint, now).merged;
      && t.rootId == mint(0)
      && FollowUpsAsked(Research(query, c, mint, now), t, fs, c, now)
  {
    var main := Research(query, c, mint, now);
    var t := Merge(main, mint, fs, c, now);
    assert FollowUpsAsked(main, t, fs, c, now) by {
      MergeAsks(main, mint, fs, c, now);
    }
    assert DeepResearch(query, fs, c, mint, now).merged == t;
  }

  /** The merged tree holds one QUERY id per question asked. */
  lemma DeepResearchQueryCount(query: string, fs: seq<string>, c: Collaborators, mint: Mint, now: RT.Stamp)
    requires RT.GoodMint(mint)
    ensures var t := DeepResearch(query, fs, c, mint, now).merged;
      |RT.IdsOfKind(t.nodes, t.order, RT.Query)| == 1 + |fs|
  {
    var main := Research(query, c, mint, now);
    var t := Merge(main, mint, fs, c, now);
    assert |RT.IdsOfKind(t.nodes, t.order, RT.Query)| == 1 + |fs| by {
      ResearchOneQuery(query, c, mint, now);
      MergeQueries(main, mint, fs, c, now);
    }
    assert DeepResearch(query, fs, c, mint, now).merged == t;
  }

  // ---------------------------------------------------------------------
  // get_research_summary

  const NoResearch: string := "No research conducted yet."
  const SummaryHead: string := "Research Summary ("

  /** The summary's lines: the counts, then at most ten numbered insights. */
  function SummaryLines(t: Tree): (lines: seq<string>)
    ensures |lines| >= 6
    ensures lines[0] == SummaryHead + NatToString(|t.nodes|) + " total nodes)"
  {
    [ SummaryHead + NatToString(|t.nodes|) + " total nodes)",
      "- Queries processed: " + NatToString(|RT.OfKind(t, RT.Query)|),
      "- Results gathered: " + NatToString(|RT.GetResults(t)|),
      "- Insights extracted: " + NatToString(|RT.GetInsights(t)|),
      "",
      "Key Insights:" ]
    + Numbered(Prefix(RT.ExtractInsights(t), 10), 1)
  }

  /** `get_research_summary()`: the fixed message without a tree, else the
      lines joined by newlines. */
  function ResearchSummary(tree: Option<Tree>): (s: string)
    ensures tree.None? <==> s == NoResearch
    ensures tree.Some? ==> StartsWith(s, SummaryHead)
  {
    match tree
    case None => NoResearch
    case Some(t) =>
      var lines := SummaryLines(t);
      var s := Join(lines, "\n");
      JoinStarts(lines, "\n");
      assert s[..|SummaryHead|] == lines[0][..|SummaryHead|] == SummaryHead;
      assert s[0] != NoResearch[0];
      s
  }

  /** The summary reports the three counts and lists the first ten insights,
      numbered from 1. */
  lemma SummaryReports(t: Tree, k: nat)
    ensures var s := ResearchSummary(Some(t));
      && Contains(s, "- Queries processed: " + NatToString(|RT.IdsOfKind(t.nodes, t.order, RT.Query)|))
      && Contains(s, "- Results gathered: " + NatToString(|RT.GetResults(t)|))
      && Contains(s, "- Insights extracted: " + NatToString(|RT.ExtractInsights(t)|))
      && (k < 10 && k < |RT.ExtractInsights(t)| ==>
            Contains(s, NatToString(k + 1) + ". " + RT.ExtractInsights(t)[k]))
  {
    var lines := SummaryLines(t);
    JoinContainsPart(lines, "\n", 1);
    JoinContainsPart(lines, "\n", 2);
    JoinContainsPart(lines, "\n", 3);
    var xs := RT.ExtractInsights(t);
    if k < 10 && k < |xs| {
      var items := Prefix(xs, 10);
      assert Numbered(items, 1)[k] == NatToString(1 + k) + ". " + items[k];
      assert lines[6 + k] == Numbered(items, 1)[k];
      JoinContainsPart(lines, "\n", 6 + k);
    }
  }
}
