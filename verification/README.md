# Research and RAG agent core, modelled in Dafny

This project models the core of a Python research assistant. The assistant
keeps its findings in a research tree. It extracts insights from text,
summarises it and scores its sentiment. It splits uploaded documents into
chunks and searches them by keyword. A drafting agent writes reports and
grades research quality. A research agent builds trees from web searches.
Two LangGraph workflows chain these steps: one for research, one for
retrieval-augmented generation (RAG).

Every operation is a pure function over immutable values. Each Python stage
that mutates a dictionary or a tree here returns a new state record or a new
tree.

| module | file | models |
|---|---|---|
| `Wrappers` | wrappers.dfy | `Option` and `Result` |
| `Seqs` | seqs.dfy | prefixes, Python slices, `Distinct`, `IndexOf`, joining |
| `Text` | text.dfy | `strip`, `lower`, `split`, `capitalize`, substring search, number rendering |
| `ResearchTree` | tree.dfy | `src/models/tree.py`: nodes, `add_node`, the queries, `to_dict` |
| `Analysis` | analysis.dfy | `src/tools/analysis_tools.py`: `extract_insights`, `summarize_content`, `analyze_sentiment` |
| `Chunker` | chunker.dfy | `chunk_documents` in `src/tools/document_tools.py` |
| `RagTools` | ragtools.dfy | `src/tools/rag_tools.py`: `rag_search`, `get_document_context`, `list_uploaded_documents` |
| `Drafting` | drafting.dfy | `src/agents/drafting_agent.py`: the stand-in model, `draft_report`, `create_report`, the fallback report, `analyze_research_quality` |
| `ResearchAgent` | research_agent.dfy | `src/agents/research_agent.py`: `research`, `deep_research`, `get_research_summary` |
| `ResearchWorkflow` | research_workflow.dfy | `src/workflows/research_workflow.py`: the five stages and `run_research` |
| `RagWorkflow` | rag_workflow.dfy | `src/workflows/rag_workflow.py`: the six stages and `run` |

The model's conventions:

- Node ids come from an id supply `mint: nat -> NodeId`. The supply is injective and never yields the empty string, and the `i`-th inserted node gets `mint(i)`. This stands in for the truncated UUIDs of `_generate_id`.
- Timestamps are one parameter, `now`.
- The web search, the language models, the vector database and the tool framework are function-typed parameters. Their failures are `Err` values carrying the raised message.
- Floats that are quotients of two counts are exact fractions (`Ratio`).
- Python's `try`/`except` becomes a `Result`. A stage that catches an exception returns the state it would have returned, with the error recorded.

## Model

| member | source | states |
|---|---|---|
| ResearchTree.Create | src/models/tree.py:41-53 | A new tree holds only its parentless ROOT node with the given content and a creation stamp, and satisfies the structural invariant `Valid`. |
| ResearchTree.AddNode | src/models/tree.py:55-89 | Fails with "parent not found" exactly when the parent (the root when none is given) is absent. On success it adds exactly the new node under that parent and stamps its metadata. The parent's child list gains the id at its end, and no other node changes. |
| ResearchTree.AddNodeKeepsValid | src/models/tree.py:55-89 | Adding a node preserves the tree invariant: a single parentless root inserted first, parents inserted before their children, and child lists agreeing with parent links in both directions. |
| ResearchTree.GetChildren | src/models/tree.py:95-101 | An unknown id has no children. Otherwise the result is the nodes behind the child list, in list order. |
| ResearchTree.ChildrenLinked | src/models/tree.py:95-101 | On a valid tree the children, in order of addition, are exactly the nodes whose parent is the given node. |
| ResearchTree.ParentRankSmaller | src/models/tree.py:103-113 | On a valid tree every parent was inserted before its child, so the walk up to the root ends. |
| ResearchTree.PathToRoot | src/models/tree.py:103-113 | An unknown id gives an empty path. Otherwise the path starts at the root and ends at the node, and each element is the parent of the next. |
| ResearchTree.OfKind | src/models/tree.py:132-143 | The nodes of one type, all of that type, one per id of that type. |
| ResearchTree.OfKindExact | src/models/tree.py:132-143 | `get_insights` and `get_results` return exactly the tree's nodes of their type, in insertion order. |
| ResearchTree.IdsOfKindSpec | src/models/tree.py:132-143 | No id of the requested type is dropped, and ids keep their relative order. |
| ResearchTree.ExtractInsights | src/models/tree.py:136-139 | One string per INSIGHT node: the node's content, in the same order. |
| ResearchTree.AddNodeAppendsKind | src/models/tree.py:55-89 | Adding a node appends its id to the ids of its type and leaves every other type's ids unchanged. |
| ResearchTree.AddNodeExtendsInsights | src/models/tree.py:55-89 | After adding a node, the insights are the old ones, followed by the new content when the new node is an INSIGHT. |
| ResearchTree.NextIdFresh | src/models/tree.py:145-148 | The next id of the supply is new to a tree built from that supply. |
| ResearchTree.Start | src/models/tree.py:41-53 | A tree created with the supply's first id is valid and consistent with the supply. |
| ResearchTree.Grow | src/models/tree.py:55-89 | `add_node` under a parent that exists, with the supply's next id, always succeeds and keeps the tree consistent with the supply. |
| ResearchTree.GrowKinds | src/models/tree.py:55-89 | Each insertion appends one id to the ids of its type. |
| ResearchTree.GrowAll | src/models/tree.py:55-89 | A loop of `add_node` calls under one parent adds one node per content and keeps every earlier node id. |
| ResearchTree.GrowAllParent | src/models/tree.py:86-87 | The parent's child list gains the new ids in insertion order. |
| ResearchTree.GrowAllNew | src/models/tree.py:71-84 | Each added node holds its content, the requested type and the parent. |
| ResearchTree.GrowAllKinds | src/models/tree.py:132-143 | The loop appends the new ids to the ids of their type and leaves every other type alone. |
| ResearchTree.GrowAllInsights | src/models/tree.py:136-139 | After the loop, the insights are the old ones followed by the new contents when the added nodes are INSIGHTs. |
| ResearchTree.ToDict | src/models/tree.py:115-130 | The dictionary form carries the root id and one record per node, keyed by node id. Each record holds the node's type value, content, parent, children and metadata. |
| ResearchTree.DictRoundTrip | src/models/tree.py:115-130 | Reading the dictionary form back gives the original tree: nothing is lost. |
| Analysis.CountIn | src/tools/analysis_tools.py:173-174 | The number of listed words that occur in the text is at most the length of the list. |
| Analysis.CountInMeaning | src/tools/analysis_tools.py:173-174 | The count is positive exactly when some word occurs, and it equals the list length exactly when every word occurs. |
| Analysis.IndicatorHits | src/tools/analysis_tools.py:39-46 | Every hit is a stripped, capitalised sentence longer than 20 characters that names an insight indicator. |
| Analysis.IndicatorHitsComplete | src/tools/analysis_tools.py:39-46 | Every such sentence is among the hits. |
| Analysis.NumericCandidates | src/tools/analysis_tools.py:53-55 | Every candidate is a sentence with a digit and more than 30 characters, stripped and capitalised. |
| Analysis.NumericCandidatesComplete | src/tools/analysis_tools.py:53-55 | Every such sentence is a candidate. |
| Analysis.NumericFallback | src/tools/analysis_tools.py:51-57 | The loop with its early exit picks exactly the first five candidates among the first 20 sentences. |
| Analysis.ExtractInsights | src/tools/analysis_tools.py:22-66 | Text under 50 stripped characters gives the "insufficient content" placeholder with count 0. Otherwise the count is the number of insights, and the topic and content length are reported. There are always between 1 and 10 insights. |
| Analysis.ExtractInsightsFromIndicators | src/tools/analysis_tools.py:48-49 | With indicator hits, the insights are distinct hits. When there are at most ten distinct hits, every hit is present. |
| Analysis.ExtractInsightsFromNumbers | src/tools/analysis_tools.py:51-59 | Without indicator hits, the insights are at most five numeric candidates from the first 20 sentences. The placeholder appears exactly when there is no candidate. |
| Analysis.NumericNotPlaceholder | src/tools/analysis_tools.py:59 | The placeholder text never comes out of the numeric fallback, so it signals "nothing found" unambiguously. |
| Analysis.LongSentences | src/tools/analysis_tools.py:88 | The kept sentences are stripped pieces of the text, each longer than 20 characters. |
| Analysis.LongSentencesComplete | src/tools/analysis_tools.py:88 | No piece longer than 20 characters once stripped is dropped. |
| Analysis.SentenceScore | src/tools/analysis_tools.py:96-123 | The score is at most 2 + 18 + 1 + 1, and at least 2 for a sentence containing a digit. |
| Analysis.RankByScore | src/tools/analysis_tools.py:126 | The ranking is a permutation of the scored sentences, in descending score, with ties kept in sentence order as Python's stable sort keeps them. |
| Analysis.OrderByPlace | src/tools/analysis_tools.py:137 | The re-sort is a permutation ordered by position. |
| Analysis.SummaryPicks | src/tools/analysis_tools.py:126-138 | The picks are as many as the slice `[:max_sentences]` keeps. They are a permutation of the chosen sentences, listed in the order of their first occurrence in the text. |
| Analysis.SummaryKeepsBest | src/tools/analysis_tools.py:126 | No sentence left out of the summary outranks a kept one. |
| Analysis.SummaryCount | src/tools/analysis_tools.py:126 | For a non-negative `max_sentences`, the summary keeps `min(max_sentences, n)` sentences. |
| Analysis.Summarize | src/tools/analysis_tools.py:84-140 | Text under 100 stripped characters gives the "too short" message. With at most `max_sentences` long sentences, all of them are returned joined by ". " with a final ".". Otherwise the ranked picks are returned joined the same way, or "Unable to generate summary." when there are none. |
| Analysis.SummaryHolds | src/tools/analysis_tools.py:88-140 | Every sentence the summary keeps appears in it: all of them on the short path, every pick on the ranked path. |
| Analysis.AnalyzeSentiment | src/tools/analysis_tools.py:157-197 | Empty text is neutral with confidence 0. Otherwise the sentiment is positive or negative exactly when that side has more indicators. The confidence is `majority / total` for a lean and 0.5 for a tie or no indicators. The counts are reported exactly when some indicator occurs, and a lean's confidence is above one half and at most 1. |
| Chunker.ScanBack | src/tools/document_tools.py:106-109 | The downward scan returns the first sentence ending from `end` down to just above the bound, and there is none between it and `end`. "None" means no ending in the range. An index below `-len(s)` is the IndexError. |
| Chunker.ChunkEnd | src/tools/document_tools.py:101-109 | The window ends at `start + chunk_size`, or, inside the text, one past the nearest sentence ending above `max(start + chunk_size // 2, end - 200)`. In the second case the window can hold `chunk_size + 1` characters. |
| Chunker.StepAsWritten | src/tools/document_tools.py:101-123 | One pass of the loop as written: the window's end, and `end - overlap` as the next start. |
| Chunker.AsWrittenStalls | src/tools/document_tools.py:100-124 | With chunk size 10 and overlap 9, on "aaaaaa.aaaaaaaaaaaaa" the loop goes from start 0 to -2 and from -2 to -2 forever, appending empty chunks. |
| Chunker.AsWrittenRunsOffFront | src/tools/document_tools.py:100-123 | With overlap 20 above chunk_size 10, on a 15-character text without a sentence ending, the start goes 0, -10, -20, -30, and the next boundary scan raises the IndexError. |
| Chunker.AsWrittenNoProgress | src/tools/document_tools.py:100-123 | An overlap at least the chunk size never moves the loop forward from a window without a sentence ending. |
| Chunker.NextStart | src/tools/document_tools.py:123 | The corrected step is always after the current start and never before `end - overlap`. |
| Chunker.StepAgrees | src/tools/document_tools.py:123 | When `1 <= chunk_size`, `overlap < chunk_size` and `overlap <= chunk_size // 2 + 1` (the defaults 1000 and 200 qualify), the corrected step equals the program's `end - overlap`. |
| Chunker.Windows | src/tools/document_tools.py:100-124 | The loop produces a window exactly when the start is inside the text, and every window starts inside the text. |
| Chunker.WindowsAdvance | src/tools/document_tools.py:100-124 | Window starts strictly increase. |
| Chunker.WindowsChain | src/tools/document_tools.py:100-124 | With a positive chunk size and a non-negative overlap, windows are non-empty and each starts no later than the previous one ends. The first starts at 0 and the last reaches the end of the text. |
| Chunker.WindowsCover | src/tools/document_tools.py:100-124 | Every position of the text lies inside some window. |
| Chunker.SplitDocument | src/tools/document_tools.py:96-124 | The loop computes the windows, with strictly increasing starts. For a non-empty text they start at 0, chain without gaps and reach its end. |
| Chunker.ChunkIdsDistinct | src/tools/document_tools.py:114 | Two chunks of one document never share an id. |
| Chunker.WindowChunk | src/tools/document_tools.py:111-121 | A window's chunk carries the file name, index, id, `start_pos`/`end_pos` and the text between the bounds. |
| Chunker.ChunksCoverText | src/tools/document_tools.py:111-124 | Every character of a split document is held, at its place, by some chunk. |
| Chunker.BackFill | src/tools/document_tools.py:126-129 | The back-fill sets the total of every chunk with the document's file name, including chunks of earlier documents with the same name, to the number of such chunks. Other chunks are unchanged. |
| Chunker.ChunkOne | src/tools/document_tools.py:83-129 | The KeyError is raised exactly when the document has no file name and the name is read: the document is short, or it has a window, or there are earlier chunks for the back-fill to compare. Otherwise the earlier chunks keep their names and order. |
| Chunker.ShortDocumentOneChunk | src/tools/document_tools.py:85-94 | A named document shorter than the chunk size adds one chunk: index 0, total 1, id `name_chunk_0`, the whole text and no span. |
| Chunker.LongDocumentChunks | src/tools/document_tools.py:95-129 | A longer document adds one chunk per window, numbered from 0, each holding its window's slice, with the back-filled total. |
| Chunker.ChunkDocuments | src/tools/document_tools.py:80-134 | When every document is named the call succeeds. Its only failure is the single "Document chunking failed" record carrying the KeyError. This matches the program when StepAgrees's conditions on the chunk size and overlap hold. |
| Chunker.UnnamedFails | src/tools/document_tools.py:85-129 | An unnamed document that is short, or that has a window, fails the whole call when every document before it is named. |
| Chunker.ChunkDocumentsConsistent | src/tools/document_tools.py:126-129 | When every document has its own file name, every chunk's total is the number of chunks of its document. |
| RagTools.StripPunct | src/tools/rag_tools.py:148 | `strip('?.,!')` never lengthens a word and leaves no such character at either end. |
| RagTools.QueryTerms | src/tools/rag_tools.py:147-152 | There are no more terms than words, and there are no terms exactly when the query has no words. |
| RagTools.QueryTermsMeaning | src/tools/rag_tools.py:147-152 | With a meaningful word, the terms are exactly the cleaned meaningful words. Otherwise every word, cleaned, is a term in order. |
| RagTools.SearchTerm | src/tools/rag_tools.py:154-155 | The `Like` term is the last query term, or the raw query when it has no words. |
| RagTools.Request | src/tools/rag_tools.py:135-181 | The request asks for `2 * limit` rows. Without a topic it matches `*term*`. With a topic the combined filter replaces that and matches `*query*` within the topic. |
| RagTools.PartialNeverAbove | src/tools/rag_tools.py:205-209 | The partial-word count never exceeds the whole-text count, so the 0.7-weighted branch never runs. |
| RagTools.ScoreIsFraction | src/tools/rag_tools.py:195-203 | The relevance is the fraction of query terms found in the lower-cased content. It lies in [0, 1] and is 1 exactly when every term occurs. |
| RagTools.KeepRelevant | src/tools/rag_tools.py:211-219 | Every kept row reaches the threshold. |
| RagTools.KeepRelevantAt | src/tools/rag_tools.py:185-219 | A row contributes its hit, between those of the rows around it, exactly when it passes the threshold. |
| RagTools.RagSearch | src/tools/rag_tools.py:131-232 | No client gives the one-entry error list, and only then. A raised query gives "RAG search failed: " with the message. A successful search reports its query and its hit count, every hit reaching the threshold. A reply without data gives no hits. |
| RagTools.RagSearchKeeps | src/tools/rag_tools.py:183-225 | A successful search returns exactly the reply's rows that pass the threshold under the query's terms, in reply order. |
| RagTools.DocumentContext | src/tools/rag_tools.py:258-276 | The "no relevant context" message appears exactly for a failed search or one without hits. An unreachable database gives only the header, because its error list is not empty. Otherwise the text starts with the header. |
| RagTools.DocumentContextNonEmpty | src/tools/rag_tools.py:239-276 | `get_document_context` never returns the empty string: every outcome yields the header or the no-context message. |
| RagTools.ContextHoldsEveryHit | src/tools/rag_tools.py:268-274 | Every hit's content appears in the context. |
| RagTools.Group | src/tools/rag_tools.py:315-326 | The listed documents have distinct, non-empty file names. |
| RagTools.GroupNames | src/tools/rag_tools.py:315-326 | The entries name exactly the non-empty file names of the reply. |
| RagTools.GroupFirst | src/tools/rag_tools.py:319-324 | Each entry carries the topic and chunk total of the first row with its file name. |
| RagTools.GroupOrder | src/tools/rag_tools.py:315-326 | Entries come in the order their file names first appear. |
| RagTools.ListDocuments | src/tools/rag_tools.py:293-329 | No client gives the error list, and only then. A raised query gives "Failed to list documents: " with the message. Otherwise the entries have distinct names, and a reply without data lists nothing. |
| Drafting.Dispatch | src/agents/drafting_agent.py:62-160 | The stand-in model answers on risk factors exactly when the lower-cased input names "heart disease" and "factors". It answers on causes exactly when it names "heart disease" and "causes" but not "factors". |
| Drafting.MessagesTextHolds | src/agents/drafting_agent.py:52-58 | Every message's content takes part in the dispatch. |
| Drafting.MockGenerate | src/agents/drafting_agent.py:49-178 | The stand-in's answer is non-empty and opens with the "Based on the medical documents" line exactly for the two heart-disease answers. |
| Drafting.DraftReport | src/agents/drafting_agent.py:331-357 | A failing backend gives "Error generating report: " with the message. A working one gives its reply. The stand-in gives its canned answer, which never starts with the failure marker. |
| Drafting.UsableContents | src/agents/drafting_agent.py:379-381 | Only non-empty results that do not start with "Research error" are kept. |
| Drafting.UsableContentsComplete | src/agents/drafting_agent.py:379-381 | No usable result is dropped. |
| Drafting.MakePrompt | src/agents/drafting_agent.py:374-449 | The report type selects the prompt. The executive prompt carries the first 3000 characters of the research content, the summary prompt the first 4000, and the comprehensive prompt all of it. The insights follow one per line. |
| Drafting.TitleFrom | src/agents/drafting_agent.py:469 | `str.title` keeps the length and which characters are letters. |
| Drafting.TitleIdempotent | src/agents/drafting_agent.py:469 | Title-casing twice is title-casing once. |
| Drafting.FindingLines | src/agents/drafting_agent.py:490-495 | The "### Finding i" blocks succeed exactly when no non-error result's summary fails, with three lines per non-error result. |
| Drafting.FallbackFailsOnlyOnSummary | src/agents/drafting_agent.py:463-505 | The fallback report is produced unless summarising one of the first five non-error results raises. |
| Drafting.FallbackListsInsights | src/agents/drafting_agent.py:480-481 | Each of the first ten insights appears in the fallback report as a numbered line. |
| Drafting.CreateReport | src/agents/drafting_agent.py:359-461 | The agent's output is used when it has one. Without an agent or output, the fallback report is used. An agent failure is reported ahead of the fallback report. The call raises only when the fallback report itself fails. |
| Drafting.Grades | src/agents/drafting_agent.py:531-566 | Four factors, each scoring 0, 15 or 25. |
| Drafting.DraftScore | src/agents/drafting_agent.py:529-566 | The quality score is at most 100. |
| Drafting.ScoreFromFeedback | src/agents/drafting_agent.py:531-566 | The four feedback lines alone determine the score. |
| Drafting.DraftScoreMonotone | src/agents/drafting_agent.py:531-566 | More insights, results, content or nodes never lower the score. |
| Drafting.Recommendations | src/agents/drafting_agent.py:579-594 | Expansion advice exactly below 40, "adequate" advice exactly from 40 to below 70, and "good" advice exactly from 70 up. |
| Drafting.GoodAdviceNeeds | src/agents/drafting_agent.py:579-594 | "Good" advice needs every factor to contribute, or two factors at full marks. |
| Drafting.ContentLengthAdd | src/agents/drafting_agent.py:522 | Adding a node adds exactly its content's length to the total content length. |
| Drafting.SentimentOf | src/agents/drafting_agent.py:525-526 | There is nothing to assess exactly when every result is empty. |
| Drafting.AnalyzeResearchQuality | src/agents/drafting_agent.py:507-577 | The counts and the total content length of the tree. With some result text, the sentiment of the newline-joined non-empty results. The score of the four factors with their feedback lines, and the recommendations for that score. |
| ResearchAgent.DirectOutputHolds | src/agents/research_agent.py:141-145 | Direct mode lists every search hit that is not an error, numbered by its position in the reply. |
| ResearchAgent.FirstInsights | src/agents/research_agent.py:156-159 | `insights[:5]` succeeds exactly on a list and keeps its first `min(5, n)` items. |
| ResearchAgent.Attempted | src/agents/research_agent.py:131-210 | The `try` block: at most five insights, and insights only after a result was written. Direct mode writes a result with the "direct" metadata unless something raised. |
| ResearchAgent.Opened | src/agents/research_agent.py:122-129 | The tree starts with the root "Research: query" and one QUERY child holding the query. |
| ResearchAgent.Research | src/agents/research_agent.py:110-220 | `research` never raises and returns a valid tree rooted at the supply's first id. |
| ResearchAgent.ResearchOpens | src/agents/research_agent.py:122-129 | The root's only child is the QUERY node, which is the tree's only QUERY node. |
| ResearchAgent.ResearchInsights | src/agents/research_agent.py:155-165 | The tree's insights are the attempt's, at most five, in order. |
| ResearchAgent.ResearchResultCount | src/agents/research_agent.py:147-219 | There is one RESULT for a written result and one for a raised exception. |
| ResearchAgent.ResearchQueryChildren | src/agents/research_agent.py:147-219 | The QUERY node's children are the written result, then the error RESULT. |
| ResearchAgent.ResearchErrorNode | src/agents/research_agent.py:212-219 | A raised exception ends in a RESULT "Research error: message" under the QUERY node, with the error metadata. |
| ResearchAgent.ResearchResultNode | src/agents/research_agent.py:147-165 | A written result is a RESULT under the QUERY node whose children are the insights, in order. |
| ResearchAgent.DirectResearch | src/agents/research_agent.py:136-167 | Direct mode without a raise: the RESULT holds the formatted search hits, and the insights are the first five the extractor lists. |
| ResearchAgent.DirectSearchRaises | src/agents/research_agent.py:136-138 | When the web search raises, the tree holds only the error RESULT carrying the message, and no insights. |
| ResearchAgent.CopyInsights | src/agents/research_agent.py:249-255 | Copying adds one node per copied insight and keeps every earlier node. |
| ResearchAgent.CopyInsightsExtends | src/agents/research_agent.py:249-255 | The copies extend the tree's insights by the copied contents, in order. |
| ResearchAgent.CopyInsightsNew | src/agents/research_agent.py:249-255 | Each copy is a new INSIGHT under the follow-up QUERY, with its source's content and metadata. |
| ResearchAgent.FollowUp | src/agents/research_agent.py:239-255 | One follow-up round keeps the tree valid and keeps every earlier node. |
| ResearchAgent.FollowUpAsked | src/agents/research_agent.py:242-255 | The round's QUERY node sits under the root with the question and its index, and its children hold the researched tree's insights. |
| ResearchAgent.FollowUpInsights | src/agents/research_agent.py:249-255 | After a round the insights are the old ones, then the follow-up tree's. |
| ResearchAgent.MergeInsights | src/agents/research_agent.py:237-255 | After every round the insights are the main research's, then each follow-up's, in question order. |
| ResearchAgent.MergeAsks | src/agents/research_agent.py:237-255 | Each follow-up question becomes a QUERY child of the root, after the root's earlier children, in question order. |
| ResearchAgent.MergeQueries | src/agents/research_agent.py:237-255 | The rounds add one QUERY node per question. |
| ResearchAgent.DeepResearch | src/agents/research_agent.py:222-257 | Both the merged tree and the agent's current tree are valid. Without follow-up questions they are the same tree. |
| ResearchAgent.DeepResearchCurrent | src/agents/research_agent.py:234-239 | With follow-up questions, the agent's current tree is the last follow-up's, holding only that question's insights. |
| ResearchAgent.DeepResearchInsights | src/agents/research_agent.py:222-257 | The merged tree holds the main query's insights, then every follow-up's, in order. |
| ResearchAgent.DeepResearchQueries | src/agents/research_agent.py:234-255 | The merged root lists the main QUERY node first, then one QUERY per follow-up question, in order. |
| ResearchAgent.DeepResearchQueryCount | src/agents/research_agent.py:222-257 | The merged tree holds one QUERY node per question asked. |
| ResearchAgent.ResearchSummary | src/agents/research_agent.py:259-279 | Without a tree, the fixed "No research conducted yet." message, and only then. Otherwise the summary heading. |
| ResearchAgent.SummaryReports | src/agents/research_agent.py:264-277 | The summary reports the QUERY, RESULT and INSIGHT counts and lists the first ten insights, numbered from 1. |
| ResearchWorkflow.StartResearch | src/workflows/research_workflow.py:62-71 | Status "started" and iteration 0. Nothing else changes. |
| ResearchWorkflow.Hits | src/workflows/research_workflow.py:97-100 | A raised search becomes a single error entry. |
| ResearchWorkflow.ResultsTextHolds | src/workflows/research_workflow.py:103-111 | The RESULT text lists every hit that is not an error, numbered by its position in the reply. |
| ResearchWorkflow.FailedHitsAddNothing | src/workflows/research_workflow.py:103-111 | A failed search leaves only the heading. |
| ResearchWorkflow.NoneValid | src/workflows/research_workflow.py:104-108 | A reply of error entries counts no valid result. |
| ResearchWorkflow.Extracted | src/workflows/research_workflow.py:136-142 | A list reply is cut to its first eight items. A raised extractor gives the single failure line. A dictionary reply cannot be sliced. |
| ResearchWorkflow.ExtractedIntended | src/workflows/research_workflow.py:142 | The slice as evidently intended: at most eight insights, the first ones of the dictionary's `insights` list for a dictionary reply. It agrees with `Extracted` on every other reply. |
| ResearchWorkflow.ConductResearch | src/workflows/research_workflow.py:73-165 | The stage fails exactly on a dictionary reply, recording only the error and status. Otherwise it stores a tree, sets "research_completed" and counts one iteration. |
| ResearchWorkflow.GatheredNodes | src/workflows/research_workflow.py:79-148 | The stage's tree: the root "Research: query" with the QUERY node as its only child, the RESULT holding the search text as the QUERY node's only child, and the insights under the RESULT, in order. |
| ResearchWorkflow.GatheredKinds | src/workflows/research_workflow.py:79-148 | The stage's tree holds one QUERY, one RESULT and exactly the given insights. |
| ResearchWorkflow.ConductInsights | src/workflows/research_workflow.py:136-148 | A completed stage's tree holds at most eight insights, taken in order from the extractor's reply. |
| ResearchWorkflow.ConductTree | src/workflows/research_workflow.py:73-157 | A completed stage holds the tree gathered from the search text and the extracted insights. |
| ResearchWorkflow.QualityScore | src/workflows/research_workflow.py:176-214 | The score is at most 100. A score of 80 or more needs at least three insights, a result and over 1000 characters. |
| ResearchWorkflow.Feedback | src/workflows/research_workflow.py:179-214 | One feedback line per factor, in order. The tree-size line appears only above five nodes. |
| ResearchWorkflow.ScoreFromFeedback | src/workflows/research_workflow.py:179-214 | The feedback lines alone determine the score. |
| ResearchWorkflow.ScoreMonotone | src/workflows/research_workflow.py:179-214 | More insights, results, content or nodes never lower the score. |
| ResearchWorkflow.Assess | src/workflows/research_workflow.py:172-223 | The analysis holds the tree's counts and total content length, with the score and feedback for them. |
| ResearchWorkflow.AnalyzeQuality | src/workflows/research_workflow.py:167-241 | Without a tree the stage fails with the `NoneType` message. Otherwise it stores the analysis and sets "quality_analyzed". |
| ResearchWorkflow.Tier | src/workflows/research_workflow.py:252-259 | Comprehensive exactly from 80, summary exactly from 60 to below 80, and executive below 60. |
| ResearchWorkflow.DefaultTierExecutive | src/workflows/research_workflow.py:252-259 | Without an analysis the default score 50 gives an executive report. |
| ResearchWorkflow.SourceLinesHold | src/workflows/research_workflow.py:293-301 | Every non-error result has its "### Source i" heading, numbered by position, followed by its summary or the failure message. |
| ResearchWorkflow.CreateReport | src/workflows/research_workflow.py:243-341 | Without a tree the stage fails with the `NoneType` message. Otherwise it writes a report starting with "# Research Report: query" and sets "report_created". Nothing else changes. |
| ResearchWorkflow.ReportListsInsights | src/workflows/research_workflow.py:280-281 | The report lists the first ten insights, numbered from 1. |
| ResearchWorkflow.ReportSaysNoInsights | src/workflows/research_workflow.py:283-284 | With no insights the report says so. |
| ResearchWorkflow.ReportSummarisesSources | src/workflows/research_workflow.py:293-301 | Each of the first three non-error results has its heading and its summary in the report. |
| ResearchWorkflow.Finalize | src/workflows/research_workflow.py:343-367 | The run is marked "completed" whatever happened. Nothing else changes. |
| ResearchWorkflow.RunResearch | src/workflows/research_workflow.py:369-409 | The five stages always end "completed", keeping the query and the iteration limit. |
| ResearchWorkflow.RunSucceeds | src/workflows/research_workflow.py:38-58 | When the extractor answers with a list or raises, the run ends with a tree, one iteration, that tree's analysis, no error and a report. |
| ResearchWorkflow.AfterResearch | src/workflows/research_workflow.py:167-367 | Once the research stage has stored a tree, the later stages keep it, and the run ends with its analysis and a report. |
| ResearchWorkflow.RunWithDictionaryReply | src/workflows/research_workflow.py:142 | A dictionary reply fails the research stage. The later stages then fail on the missing tree, and the run still ends "completed", with no tree, no analysis and an empty report. |
| RagWorkflow.InitialRag | src/workflows/rag_workflow.py:60-84 | The run starts with status "starting", the caller's query, topic, limit and web-search switch, no uploaded files and empty contexts. |
| RagWorkflow.StartRag | src/workflows/rag_workflow.py:86-94 | Status "rag_started". Nothing else changes. |
| RagWorkflow.ProcessDocuments | src/workflows/rag_workflow.py:96-131 | "no_documents" exactly without uploaded files, "documents_processed" exactly with some. Nothing else changes. |
| RagWorkflow.ReplySize | src/tools/rag_tools.py:131-232 | Every value `rag_search` returns is non-empty, so it is true when tested. |
| RagWorkflow.SearchDocuments | src/workflows/rag_workflow.py:133-170 | The request fields never change. A raised search or context call records "Document search failed: " with the message and status "error", and changes nothing else. Otherwise the document context is the context tool's reply and the status is "documents_searched". "no_documents_found" is never reached. |
| RagWorkflow.WebSearch | src/workflows/rag_workflow.py:172-219 | The four web-search outcomes: disabled, raised, no results, and results, where the web context holds the first three. The document context and the request fields never change. |
| RagWorkflow.WebContextHolds | src/workflows/rag_workflow.py:194-197 | Each of the first three results contributes its block, with "Web Source" as the title when it has none. |
| RagWorkflow.WebContextFirstThree | src/workflows/rag_workflow.py:194-197 | Results after the third never reach the web context. |
| RagWorkflow.CombineContext | src/workflows/rag_workflow.py:221-231 | The combined context is the document context and the status is "context_combined". Nothing else changes. |
| RagWorkflow.CombineIgnoresWeb | src/workflows/rag_workflow.py:221-231 | Whatever the web stage wrote, the combined context is the document context. |
| RagWorkflow.Truncate | src/workflows/rag_workflow.py:294-299 | A context of at most 2000 characters is kept whole. A longer one keeps its first 2000 characters followed by the truncation note. |
| RagWorkflow.TruncateKeepsPrefix | src/workflows/rag_workflow.py:294-299 | The fallback always shows the context's first 2000 characters, and never more than 2000 plus the note. |
| RagWorkflow.PromptHolds | src/workflows/rag_workflow.py:238-266 | The prompt quotes the query and carries the whole context. |
| RagWorkflow.CreateRagReport | src/workflows/rag_workflow.py:233-324 | The report starts with the heading and the query. It holds the agent's draft, or, when the agent cannot be built, the truncated context. |
| RagWorkflow.ReportWithStandIn | src/workflows/rag_workflow.py:233-324 | With the stand-in model the report holds its canned answer. A context of at most 2000 characters appears whole in the fallback. |
| RagWorkflow.Finalize | src/workflows/rag_workflow.py:326-348 | An empty context gives the "# Error" report, the error message and status "error", and only then. Otherwise the report is built from the context and the status is "completed". The request fields never change. |
| RagWorkflow.Stages | src/workflows/rag_workflow.py:42-56 | Six stages run, in the graph's order. |
| RagWorkflow.RunRag | src/workflows/rag_workflow.py:60-84 | The run keeps its query, topic and iteration limit, and ends "completed" or "error". |
| RagWorkflow.StageStatuses | src/workflows/rag_workflow.py:42-56 | The stage statuses are, in order: "rag_started"; "no_documents", because the run never passes uploaded files; searched or error; skipped exactly when web search is off; "context_combined"; and completed or error. |
| RagWorkflow.RunOutcome | src/workflows/rag_workflow.py:60-348 | A run completes exactly when the document search yields a non-empty context, and then reports on that context. Otherwise its report is the no-context error. |
| RagWorkflow.RunCompletesWhenToolsReturn | src/workflows/rag_workflow.py:133-170 | When the context tool never answers with the empty string, as `get_document_context` does not, a run completes exactly when both search-stage tool calls return. It fails with the no-context report exactly when one of them raises. |
| RagWorkflow.RunIgnoresWebSearch | src/workflows/rag_workflow.py:172-231 | Turning web search on or off changes neither the report nor the final status. |

## Left out

- Network, LLM and database calls (Tavily, Gemini, OpenAI, Weaviate, the LangChain agent executor) are not modelled. They are function-typed parameters whose replies or raised messages the caller chooses.
- `upload_documents`, `store_document_chunks`, `store_in_weaviate`, `get_research_context` and the search tools are not part of this model. They are outside the core, and only their results flow in, as parameters.
- Printing, the LangGraph graph compiler and the `GeminiLLM` wrapper are not modelled. The graphs are fixed stage sequences.
- UUIDs and timestamps are not modelled. Ids come from an injective supply and the time is one `now` value. A single `now` also hides the metadata aliasing at research_agent.py:250-255: `add_node` writes `created_at` into the metadata dictionary it was given, per tree.py:77-81, so the copied insight's source node shares that dictionary.
- `Text.IsDigit`, `Text.Lower` and `Text.Capitalize` handle ASCII only, and so does `Drafting.TitleFrom`. Python's `str.isdigit`, `str.lower`, `str.capitalize` (analysis_tools.py:45 and :55) and `str.title` are Unicode-aware: '²' is a digit for analysis_tools.py:54 and :100, and 'İ'.lower() changes the string's length.
- Analysis.AnalyzeSentiment: the confidence is the exact fraction. `round(confidence, 2)` and float division are not modelled.
- RagTools.DocumentContext: the two-decimal rendering of the relevance is a parameter, not float formatting.
- ResearchAgent.FirstInsights / ResearchWorkflow.Extracted: the message for slicing a dictionary (`DictSliced`) is the Python 3.11 and earlier `TypeError` text. From Python 3.12 the slice raises `KeyError` with message "slice(None, 5, None)", or "slice(None, 8, None)" at research_workflow.py:142. The branch taken is the same.
- ResearchWorkflow.AnalyzeQuality: the state record keeps `quality` as a field. `ResearchState` (research_workflow.py:12-20) declares no `quality_analysis` key, and the model assumes LangGraph passes the undeclared key on to the report stage. That assumption decides the report tier. If the key is dropped, the tier is always executive (see `DefaultTierExecutive`).
- Drafting.MockGenerate: `CannedText` models only the first line of each canned answer. The fixed Markdown body after it is not modelled.
- ResearchAgent.DirectResearch: the tool calls at research_agent.py:138 (`max_results=3`), :156 and :199 (`extract_insights(x, query)`), and drafting_agent.py:492 (`max_sentences=3`) pass keyword or second positional arguments to a LangChain tool. `BaseTool.__call__` takes only the input and callbacks, so these calls raise. As written, the program therefore always takes the error path, which `DirectSearchRaises` states. `DirectResearch` describes the path the authors evidently intended.
- Chunker.NextStart / Chunker.ChunkDocuments: the model advances the chunk loop to `max(end - overlap, start + 1)`, while document_tools.py:123 uses `end - overlap`. The two agree when `1 <= chunk_size`, `overlap < chunk_size` and `overlap <= chunk_size // 2 + 1` (`StepAgrees`). This includes the defaults 1000 and 200. Outside that range the program behaves differently, and the model does not promise that behaviour. With overlap below chunk_size the start can repeat, so the loop never ends (`AsWrittenStalls`, `AsWrittenNoProgress`). With overlap above chunk_size the start moves back each pass until the boundary scan at document_tools.py:106-107 reads below `-len(content)`. That raises IndexError, and the call returns the single "Document chunking failed: string index out of range" record where the model returns chunks (`AsWrittenRunsOffFront`).
- Chunker.ChunkDocuments: a document whose `content` is not a string, and other TypeErrors, are not modelled. Only the missing `file_name` KeyError is.
- Analysis.ExtractInsights: the order of `list(set(insights))` depends on string hashing. The caller supplies it as an arrangement of the hits.
- RagWorkflow.InitialRag: the `research_tree` the initial state holds is not modelled. No stage reads it.
- RagWorkflow.ProcessDocuments: the `except` branch is not modelled. Nothing in the `try` block can raise.
- RagWorkflow.SearchDocuments: the conversion LangChain applies when `get_document_context` is given the search reply is not modelled. That tool's reply is a parameter, so `RunOutcome` also covers an empty context, which `get_document_context` itself never returns (`DocumentContextNonEmpty`). In the program, the no-context error report therefore arises only when one of the two tool calls raises (`RunCompletesWhenToolsReturn`).
- RagWorkflow.CombineContext: whether LangGraph keeps the undeclared `combined_context` key does not matter to the model. `_finalize` falls back to the document context, which is the same value (`CombineIgnoresWeb`).

## Findings

| source | as written | input that shows it | evidently intended | confidence | as-written member | corrected member |
|---|---|---|---|---|---|---|
| src/tools/document_tools.py:123 | `start = end - overlap` can move the window start backwards or leave it where it is | chunk_size 10, overlap 9, content "aaaaaa.aaaaaaaaaaaaa": start 0 → -2 → -2 … and the loop never ends | every window starts after the previous one, so the loop ends and the windows cover the text | high, not executed | Chunker.AsWrittenStalls | Chunker.WindowsChain |
| src/workflows/research_workflow.py:142 | `insights[:8]` on the dictionary that `extract_insights` returns raises, and the run ends "completed" with no tree and an empty report | any search whose insight extraction succeeds and returns its dictionary | slice the `insights` list inside the reply | medium, not executed | ResearchWorkflow.RunWithDictionaryReply | ResearchWorkflow.ExtractedIntended |
| src/agents/research_agent.py:138 | `tavily_search(query, max_results=3)` calls a LangChain tool with a keyword argument, which raises, so direct mode always writes only an error RESULT | any query without an agent executor | `tavily_search.invoke({"query": query, "max_results": 3})`, as research_workflow.py:98 does | medium, not executed | ResearchAgent.DirectSearchRaises | ResearchAgent.DirectResearch |
