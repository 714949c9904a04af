/** The retrieval tools over stored document chunks: `rag_search` (term
    extraction, overlap scoring and the relevance threshold),
    `get_document_context` (formatting the hits for a prompt) and
    `list_uploaded_documents` (one entry per stored file). The vector
    database is not modelled: its reply to a query is an input. */
module RagTools {
  import opened Wrappers
  import opened Seqs
  import opened Text
  import opened Analysis

  // ---------------------------------------------------------------------
  // Query terms

  const StopWords: set<string> := {
    "what", "are", "the", "main", "for", "of", "in", "to", "and", "a", "an",
    "is", "that", "this", "with", "from", "by", "on", "at", "as", "be",
    "have", "has", "will", "would", "could", "should"
  }

  predicate IsPunct(c: char) {
    c == '?' || c == '.' || c == ',' || c == '!'
  }

  function DropPunctFront(s: string): (r: string)
    ensures |r| <= |s| && r == s[|s| - |r|..]
    ensures r == [] || !IsPunct(r[0])
  {
    if s != [] && IsPunct(s[0]) then DropPunctFront(s[1..]) else s
  }

  function DropPunctBack(s: string): (r: string)
    ensures |r| <= |s| && r == s[..|r|]
    ensures r == [] || !IsPunct(r[|r| - 1])
  {
    if s != [] && IsPunct(s[|s| - 1]) then DropPunctBack(s[..|s| - 1]) else s
  }

  /** `term.strip('?.,!')` */
  function StripPunct(s: string): (r: string)
    ensures |r| <= |s|
    ensures r == [] || (!IsPunct(r[0]) && !IsPunct(r[|r| - 1]))
  {
    DropPunctBack(DropPunctFront(s))
  }

  /** `term.strip('?.,!').lower()` */
  function Clean(term: string): string {
    Lower(StripPunct(term))
  }

  /** A query word worth searching for: not a stop word, and longer than
      two characters once stripped. */
  predicate Meaningful(term: string) {
    Clean(term) !in StopWords && |StripPunct(term)| > 2
  }

  /** The cleaned meaningful words, in query order. */
  function MeaningfulOf(words: seq<string>): (r: seq<string>)
    ensures |r| <= |words|
  {
    Keep(words, Meaningful, Clean)
  }

  /** `t` is the cleaned form of a meaningful word of `words`. */
  predicate FromMeaningful(words: seq<string>, t: string) {
    exists i :: 0 <= i < |words| && Meaningful(words[i]) && t == Clean(words[i])
  }

  /** The terms a query is scored by (in `rag_search`, both for the `Like` filter and for scoring): the
      cleaned meaningful words, or every cleaned word when none is
      meaningful. */
  function QueryTerms(query: string): (terms: seq<string>)
    ensures |terms| <= |Words(query)|
    ensures terms == [] <==> Words(query) == []
  {
    var ws := Words(query);
    var m := MeaningfulOf(ws);
    if m != [] then m
    else
      var all := seq(|ws|, i requires 0 <= i < |ws| => Clean(ws[i]));
      assert ws != [] ==> all[0] == Clean(ws[0]);
      all
  }

  /** When the query has a meaningful word, the terms are exactly the
      cleaned meaningful words; otherwise every word, cleaned, is a term. */
  lemma QueryTermsMeaning(query: string)
    ensures var ws := Words(query);
      var terms := QueryTerms(query);
      && ((exists i :: 0 <= i < |ws| && Meaningful(ws[i])) ==>
            && (forall i :: 0 <= i < |ws| && Meaningful(ws[i]) ==> Clean(ws[i]) in terms)
            && (forall k :: 0 <= k < |terms| ==> FromMeaningful(ws, terms[k])))
      && ((forall i :: 0 <= i < |ws| ==> !Meaningful(ws[i])) ==>
            |terms| == |ws| && forall i :: 0 <= i < |ws| ==> terms[i] == Clean(ws[i]))
  {
    var ws := Words(query);
    var m := MeaningfulOf(ws);
    KeepEmpty(ws, Meaningful, Clean);
    forall i | 0 <= i < |ws| && Meaningful(ws[i]) ensures Clean(ws[i]) in m {
      KeepComplete(ws, Meaningful, Clean, i);
    }
    forall k | 0 <= k < |m| ensures FromMeaningful(ws, m[k]) {
      var i := KeepSound(ws, Meaningful, Clean, k);
    }
  }

  /** The term `rag_search` sends to the `Like` filter: the last term, or the
      raw query when it has no words at all. */
  function SearchTerm(query: string): (t: string)
    ensures Words(query) == [] ==> t == query
    ensures Words(query) != [] ==> t in QueryTerms(query)
    ensures Words(query) != [] ==> t == QueryTerms(query)[|QueryTerms(query)| - 1]
  {
    var terms := QueryTerms(query);
    if terms != [] then
      var t := terms[|terms| - 1];
      assert t in terms;
      t
    else query
  }

  // ---------------------------------------------------------------------
  // rag_search

  /** A stored chunk as the database returns it; every property may be
      missing. */
  datatype StoredChunk = StoredChunk(
    content: Option<string>,
    fileName: Option<string>,
    chunkId: Option<string>,
    topic: Option<string>,
    chunkIndex: Option<int>,
    totalChunks: Option<int>)

  /** One result of `rag_search`. */
  datatype Hit = Hit(content: string, fileName: string, chunkId: string, topic: string, chunkIndex: int, relevance: Ratio)

  /** The query sent to the database: a `Like` pattern on the content, a
      result limit and an optional topic filter. */
  datatype SearchRequest = SearchRequest(pattern: string, limit: int, topic: Option<string>)

  /** What the database does with a request: Err for an exception, None for
      a reply without data, the rows otherwise. */
  type Database = SearchRequest -> Result<Option<seq<StoredChunk>>, string>

  datatype SearchOutcome =
    | Unreachable
    | Found(results: seq<Hit>, total: nat, query: string)
    | Failed(error: string, query: string)

  const DefaultLimit := 5
  const DefaultThreshold := Ratio(3, 10)
  const ConnectFailure := "Failed to connect to Weaviate"

  /** The request `rag_search` builds. With a topic, the combined filter replaces the
      search-term filter and matches the whole query instead. */
  function Request(query: string, topic: string, limit: int): (req: SearchRequest)
    ensures req.limit == 2 * limit
    ensures topic == "" ==> req == SearchRequest("*" + SearchTerm(query) + "*", 2 * limit, None)
    ensures topic != "" ==> req == SearchRequest("*" + query + "*", 2 * limit, Some(topic))
  {
    if topic != "" then SearchRequest("*" + query + "*", limit * 2, Some(topic))
    else SearchRequest("*" + SearchTerm(query) + "*", limit * 2, None)
  }

  /** Whether some whitespace-separated word of `text` contains `t`. */
  predicate InSomeWord(text: string, t: string) {
    exists k :: 0 <= k < |Words(text)| && Contains(Words(text)[k], t)
  }

  /** `sum(1 for term in terms if any(term in word for word in text.split()))` */
  function PartialCount(text: string, terms: seq<string>): (n: nat)
    ensures n <= |terms|
  {
    if terms == [] then 0
    else (if InSomeWord(text, terms[0]) then 1 else 0) + PartialCount(text, terms[1..])
  }

  /** A term inside a word of the text is inside the text. */
  lemma InSomeWordContained(text: string, t: string)
    requires InSomeWord(text, t)
    ensures Contains(text, t)
  {
    var k :| 0 <= k < |Words(text)| && Contains(Words(text)[k], t);
    WordsOccur(text);
    ContainsTransitive(text, Words(text)[k], t);
  }

  /** The partial-word count never exceeds the whole-text count, so the
      0.7-weighted branch of `rag_search`'s scoring never changes a score. */
  lemma {:induction false} PartialNeverAbove(text: string, terms: seq<string>)
    ensures PartialCount(text, terms) <= CountIn(text, terms)
  {
    if terms != [] {
      PartialNeverAbove(text, terms[1..]);
      if InSomeWord(text, terms[0]) {
        InSomeWordContained(text, terms[0]);
      }
    }
  }

  /** The larger of two fractions with positive denominators. */
  function MaxRatio(a: Ratio, b: Ratio): (r: Ratio)
    ensures r == a || r == b
    ensures r.AtLeast(a) && r.AtLeast(b)
  {
    if a.AtLeast(b) then a else b
  }

  /** The relevance of a chunk's text in `rag_search`, as written there,
      partial-match branch included. */
  function Score(content: string, terms: seq<string>): (score: Ratio)
  {
    var text := Lower(content);
    if terms == [] then Ratio(0, 1)
    else
      var n := |terms|;
      var matching := CountIn(text, terms);
      var partial := PartialCount(text, terms);
      var score := Ratio(matching, n);
      if partial > matching then MaxRatio(score, Ratio(7 * partial, 10 * n)) else score
  }

  /** The relevance is the fraction of query terms found in the lower-cased
      text, so it lies in [0, 1], and it is 1 exactly when every term
      occurs. */
  lemma ScoreIsFraction(content: string, terms: seq<string>)
    requires terms != []
    ensures Score(content, terms) == Ratio(CountIn(Lower(content), terms), |terms|)
    ensures Score(content, terms).AtMostOne()
    ensures Score(content, terms).num == |terms| <==>
              forall i :: 0 <= i < |terms| ==> Contains(Lower(content), terms[i])
  {
    PartialNeverAbove(Lower(content), terms);
    CountInMeaning(Lower(content), terms);
  }

  function HitOf(row: StoredChunk, terms: seq<string>): Hit {
    var content := row.content.GetOr("");
    Hit(content, row.fileName.GetOr(""), row.chunkId.GetOr(""), row.topic.GetOr(""),
        row.chunkIndex.GetOr(0), Score(content, terms))
  }

  predicate Passes(row: StoredChunk, terms: seq<string>, threshold: Ratio) {
    Score(row.content.GetOr(""), terms).AtLeast(threshold)
  }

  /** The rows whose score reaches the threshold, as hits, in reply order. */
  function KeepRelevant(rows: seq<StoredChunk>, terms: seq<string>, threshold: Ratio): (hits: seq<Hit>)
    ensures |hits| <= |rows|
    ensures forall k :: 0 <= k < |hits| ==> hits[k].relevance.AtLeast(threshold)
  {
    if rows == [] then []
    else
      var rest := KeepRelevant(rows[1..], terms, threshold);
      if Passes(rows[0], terms, threshold) then [HitOf(rows[0], terms)] + rest else rest
  }

  /** Filtering commutes with splitting the reply: order is kept. */
  lemma {:induction false} KeepRelevantAppend(a: seq<StoredChunk>, b: seq<StoredChunk>, terms: seq<string>, threshold: Ratio)
    ensures KeepRelevant(a + b, terms, threshold) == KeepRelevant(a, terms, threshold) + KeepRelevant(b, terms, threshold)
  {
    if a != [] {
      var ab := a + b;
      assert ab[0] == a[0];
      assert ab[1..] == a[1..] + b;
      KeepRelevantAppend(a[1..], b, terms, threshold);
      var head: seq<Hit> := if Passes(a[0], terms, threshold) then [HitOf(a[0], terms)] else [];
      assert KeepRelevant(ab, terms, threshold) == head + KeepRelevant(ab[1..], terms, threshold);
      assert KeepRelevant(a, terms, threshold) == head + KeepRelevant(a[1..], terms, threshold);
      AppendAssoc(head, KeepRelevant(a[1..], terms, threshold), KeepRelevant(b, terms, threshold));
    } else {
      assert a + b == b;
    }
  }

  /** A row is kept exactly when it reaches the threshold. */
  lemma KeepRelevantSingle(row: StoredChunk, terms: seq<string>, threshold: Ratio)
    ensures KeepRelevant([row], terms, threshold) == if Passes(row, terms, threshold) then [HitOf(row, terms)] else []
  {
    assert [row][1..] == [];
  }

  /** `rag_search(query, topic, limit, threshold)`. `connected` says
      whether a client could be obtained. */
  function RagSearch(query: string, topic: string, limit: int, threshold: Ratio, connected: bool, db: Database): (r: SearchOutcome)
    ensures !connected <==> r.Unreachable?
    ensures r.Failed? ==> db(Request(query, topic, limit)).Err? && r.error == "RAG search failed: " + db(Request(query, topic, limit)).error
    ensures r.Found? ==> r.total == |r.results| && r.query == query
    ensures r.Found? && db(Request(query, topic, limit)) == Ok(None) ==> r.results == []
    ensures r.Found? ==> forall k :: 0 <= k < |r.results| ==> r.results[k].relevance.AtLeast(threshold)
  {
    if !connected then Unreachable
    else
      match db(Request(query, topic, limit))
      case Err(e) => Failed("RAG search failed: " + e, query)
      case Ok(None) => Found([], 0, query)
      case Ok(Some(rows)) =>
        var hits := KeepRelevant(rows, QueryTerms(query), threshold);
        Found(hits, |hits|, query)
  }

  /** The hits are the rows that reach the threshold, in reply order: the
      row at `i` contributes its hit between those of the rows before and
      after it exactly when it passes. */
  lemma KeepRelevantAt(rows: seq<StoredChunk>, terms: seq<string>, threshold: Ratio, i: nat)
    requires i < |rows|
    ensures KeepRelevant(rows, terms, threshold)
              == KeepRelevant(rows[..i], terms, threshold)
                 + (if Passes(rows[i], terms, threshold) then [HitOf(rows[i], terms)] else [])
                 + KeepRelevant(rows[i + 1..], terms, threshold)
  {
    assert rows == rows[..i] + ([rows[i]] + rows[i + 1..]);
    KeepRelevantAppend(rows[..i], [rows[i]] + rows[i + 1..], terms, threshold);
    KeepRelevantAppend([rows[i]], rows[i + 1..], terms, threshold);
    KeepRelevantSingle(rows[i], terms, threshold);
  }

  /** A successful search returns the rows of the reply that pass the
      threshold under the query's terms. */
  lemma RagSearchKeeps(query: string, topic: string, limit: int, threshold: Ratio, db: Database, rows: seq<StoredChunk>)
    requires db(Request(query, topic, limit)) == Ok(Some(rows))
    ensures RagSearch(query, topic, limit, threshold, true, db) == Found(KeepRelevant(rows, QueryTerms(query), threshold), |KeepRelevant(rows, QueryTerms(query), threshold)|, query)
  {
  }

  // ---------------------------------------------------------------------
  // get_document_context

  const ContextIntro := "Context from uploaded documents for '"
  const NoContextLead := "No relevant context"
  const NoContextText := NoContextLead + " found in uploaded documents for: "
  const SourceLabel := "[Source "
  const ChunkLabel := " - Chunk "
  const RelevanceLabel := "\n(Relevance: "

  function Header(query: string): (r: string)
    ensures |r| > 0 && r[0] == 'C'
  {
    assert ContextIntro[0] == 'C';
    ContextIntro + query + "':\n"
  }

  function NoContext(query: string): (r: string)
    ensures |r| > 0 && r[0] == 'N'
  {
    assert NoContextText[0] == NoContextLead[0] == 'N';
    NoContextText + query
  }

  /** The line naming the `i`-th hit's file and chunk. */
  function SourceHead(i: nat, h: Hit): string {
    SourceLabel + NatToString(i) + ": " + h.fileName + ChunkLabel + IntToString(h.chunkIndex) + "]\n"
  }

  /** The block for the `i`-th hit; `render` stands for the two-decimal
      float formatting of the relevance. */
  function Source(i: nat, h: Hit, render: Ratio -> string): string {
    SourceHead(i, h) + h.content + RelevanceLabel + render(h.relevance) + ")\n"
  }

  lemma SourceHoldsContent(i: nat, h: Hit, render: Ratio -> string)
    ensures Contains(Source(i, h, render), h.content)
  {
    var c := RelevanceLabel + render(h.relevance) + ")\n";
    assert Source(i, h, render) == SourceHead(i, h) + h.content + c;
    ContainsMiddle(SourceHead(i, h), h.content, c);
  }

  function Sources(hits: seq<Hit>, render: Ratio -> string): (r: seq<string>)
    ensures |r| == |hits|
    ensures forall k :: 0 <= k < |r| ==> r[k] == Source(k + 1, hits[k], render)
  {
    seq(|hits|, k requires 0 <= k < |hits| => Source(k + 1, hits[k], render))
  }

  /** `get_document_context(query, topic, max_chunks)` given the outcome of
      its `rag_search` call. An unreachable database yields a one-element
      error list, which is not empty, so only the header is returned. */
  function DocumentContext(query: string, outcome: SearchOutcome, render: Ratio -> string): (r: string)
    ensures (outcome.Failed? || (outcome.Found? && outcome.results == [])) <==> r == NoContext(query)
    ensures outcome.Unreachable? ==> r == Header(query)
    ensures outcome.Found? && outcome.results != [] ==> StartsWith(r, Header(query))
  {
    match outcome
    case Unreachable =>
      Join([Header(query)], "\n")
    case Failed(_, _) => NoContext(query)
    case Found(hits, _, _) =>
      if hits == [] then NoContext(query)
      else
        var r := Join([Header(query)] + Sources(hits, render), "\n");
        assert r == Header(query) + "\n" + Join(Sources(hits, render), "\n");
        assert r[..|Header(query)|] == Header(query);
        assert r[0] == Header(query)[0];
        r
  }

  /** `get_document_context` never returns the empty string: every
      outcome yields the header or the no-context message. */
  lemma DocumentContextNonEmpty(query: string, outcome: SearchOutcome, render: Ratio -> string)
    ensures DocumentContext(query, outcome, render) != ""
  {
    match outcome
    case Unreachable =>
      assert |Header(query)| > 0;
    case Failed(_, _) =>
      assert |NoContext(query)| > 0;
    case Found(hits, _, _) =>
      assert |Header(query)| > 0 && |NoContext(query)| > 0;
  }

  /** Every hit's text reaches the prompt. */
  lemma ContextHoldsEveryHit(query: string, outcome: SearchOutcome, render: Ratio -> string, k: nat)
    requires outcome.Found? && k < |outcome.results|
    ensures Contains(DocumentContext(query, outcome, render), outcome.results[k].content)
  {
    var hits := outcome.results;
    var parts := [Header(query)] + Sources(hits, render);
    var h := hits[k];
    assert parts[k + 1] == Source(k + 1, h, render);
    SourceHoldsContent(k + 1, h, render);
    JoinContainsPart(parts, "\n", k + 1);
    ContainsTransitive(Join(parts, "\n"), parts[k + 1], h.content);
  }

  // ---------------------------------------------------------------------
  // list_uploaded_documents

  datatype DocEntry = DocEntry(fileName: string, topic: string, totalChunks: int)

  datatype ListOutcome = ListUnreachable | Listed(entries: seq<DocEntry>) | ListFailed(error: string)

  function RowName(row: StoredChunk): string {
    row.fileName.GetOr("")
  }

  function RowNames(rows: seq<StoredChunk>): (r: seq<string>)
    ensures |r| == |rows|
    ensures forall k :: 0 <= k < |rows| ==> r[k] == RowName(rows[k])
  {
    seq(|rows|, k requires 0 <= k < |rows| => RowName(rows[k]))
  }

  function EntryOf(row: StoredChunk): DocEntry {
    DocEntry(RowName(row), row.topic.GetOr(""), row.totalChunks.GetOr(0))
  }

  function EntryNames(es: seq<DocEntry>): (r: seq<string>)
    ensures |r| == |es|
    ensures forall k :: 0 <= k < |es| ==> r[k] == es[k].fileName
  {
    seq(|es|, k requires 0 <= k < |es| => es[k].fileName)
  }

  /** The loop of `list_documents`: walk the rows, keeping the first row of every
      non-empty file name. */
  function Group(rows: seq<StoredChunk>): (es: seq<DocEntry>)
    ensures Distinct(EntryNames(es))
    ensures forall k :: 0 <= k < |es| ==> es[k].fileName != ""
    decreases |rows|
  {
    if rows == [] then []
    else
      var g := Group(rows[..|rows| - 1]);
      var last := rows[|rows| - 1];
      if RowName(last) != "" && RowName(last) !in EntryNames(g) then
        var es := g + [EntryOf(last)];
        assert EntryNames(es) == EntryNames(g) + [RowName(last)];
        es
      else g
  }

  /** The reply's rows up to the last, and how `Group` extends their
      entries with the last row. */
  lemma GroupStep(rows: seq<StoredChunk>)
    requires rows != []
    ensures var init := rows[..|rows| - 1];
      var last := rows[|rows| - 1];
      && RowNames(rows) == RowNames(init) + [RowName(last)]
      && Group(rows) == if RowName(last) != "" && RowName(last) !in EntryNames(Group(init))
                        then Group(init) + [EntryOf(last)] else Group(init)
  {
  }

  /** The entries name exactly the non-empty file names of the reply. */
  lemma {:induction false} GroupNames(rows: seq<StoredChunk>)
    ensures forall x :: x in EntryNames(Group(rows)) <==> x != "" && x in RowNames(rows)
    decreases |rows|
  {
    if rows != [] {
      var init := rows[..|rows| - 1];
      var last := rows[|rows| - 1];
      GroupNames(init);
      GroupStep(rows);
      var g := Group(init);
      if RowName(last) != "" && RowName(last) !in EntryNames(g) {
        assert EntryNames(Group(rows)) == EntryNames(g) + [RowName(last)];
      }
    }
  }

  /** Each entry carries the topic and chunk total of the first row with its
      file name. */
  lemma {:induction false} GroupFirst(rows: seq<StoredChunk>)
    ensures var es := Group(rows);
      forall k :: 0 <= k < |es| ==>
        IndexOf(RowNames(rows), es[k].fileName) < |rows| && es[k] == EntryOf(rows[IndexOf(RowNames(rows), es[k].fileName)])
    decreases |rows|
  {
    if rows != [] {
      var init := rows[..|rows| - 1];
      var last := rows[|rows| - 1];
      GroupFirst(init);
      GroupNames(init);
      GroupStep(rows);
      var g := Group(init);
      var es := Group(rows);
      forall k | 0 <= k < |es|
        ensures IndexOf(RowNames(rows), es[k].fileName) < |rows| && es[k] == EntryOf(rows[IndexOf(RowNames(rows), es[k].fileName)])
      {
        var x := es[k].fileName;
        IndexOfAppend(RowNames(init), RowName(last), x);
        if k < |g| {
          assert es[k] == g[k];
          assert x in EntryNames(g);
          assert rows[IndexOf(RowNames(init), x)] == init[IndexOf(RowNames(init), x)];
        } else {
          assert es[k] == EntryOf(last) && x == RowName(last) && x !in RowNames(init);
          assert rows[|init|] == last;
        }
      }
    }
  }

  /** Entries come in the order their file names first appear. */
  lemma {:induction false} GroupOrder(rows: seq<StoredChunk>)
    ensures var es := Group(rows);
      forall j, k :: 0 <= j < k < |es| ==>
        IndexOf(RowNames(rows), es[j].fileName) < IndexOf(RowNames(rows), es[k].fileName)
    decreases |rows|
  {
    if rows != [] {
      var init := rows[..|rows| - 1];
      var last := rows[|rows| - 1];
      GroupOrder(init);
      GroupNames(init);
      GroupStep(rows);
      var g := Group(init);
      var es := Group(rows);
      forall k | 0 <= k < |g| ensures IndexOf(RowNames(rows), g[k].fileName) == IndexOf(RowNames(init), g[k].fileName) < |init| {
        assert g[k].fileName in EntryNames(g);
        IndexOfAppend(RowNames(init), RowName(last), g[k].fileName);
      }
      if |es| > |g| {
        IndexOfAppend(RowNames(init), RowName(last), RowName(last));
        assert es[|g|].fileName == RowName(last) && RowName(last) !in RowNames(init);
      }
    }
  }

  /** `list_uploaded_documents(topic)` given the database's reply to the
      listing query. */
  function ListDocuments(connected: bool, reply: Result<Option<seq<StoredChunk>>, string>): (r: ListOutcome)
    ensures !connected <==> r.ListUnreachable?
    ensures r.ListFailed? <==> connected && reply.Err?
    ensures r.ListFailed? ==> r.error == "Failed to list documents: " + reply.error
    ensures r.Listed? ==> Distinct(EntryNames(r.entries))
    ensures connected && reply == Ok(None) ==> r == Listed([])
  {
    if !connected then ListUnreachable
    else
      match reply
      case Err(e) => ListFailed("Failed to list documents: " + e)
      case Ok(None) => Listed([])
      case Ok(Some(rows)) => Listed(Group(rows))
  }
}
