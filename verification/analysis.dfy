/** The keyword heuristics of the analysis tools: `extract_insights`,
    `summarize_content` and `analyze_sentiment`. All three work on the
    pieces of the text between periods and on lower-cased substring tests
    against fixed word lists. */
module Analysis {
  import opened Wrappers
  import opened Seqs
  import opened Text

  // ---------------------------------------------------------------------
  // Word lists

  /** `text` contains at least one of `words`. */
  predicate MentionsAny(text: string, words: seq<string>) {
    exists i :: 0 <= i < |words| && Contains(text, words[i])
  }

  /** How many of `words` occur in `text` (each counted once, as
      `sum(1 for w in words if w in text)` does). */
  function CountIn(text: string, words: seq<string>): (n: nat)
    ensures n <= |words|
  {
    if words == [] then 0
    else (if Contains(text, words[0]) then 1 else 0) + CountIn(text, words[1..])
  }

  /** The count is positive exactly when some word occurs, and reaches the
      length of the list exactly when every word occurs. */
  lemma {:induction false} CountInMeaning(text: string, words: seq<string>)
    ensures CountIn(text, words) > 0 <==> MentionsAny(text, words)
    ensures CountIn(text, words) == |words| <==>
              forall i :: 0 <= i < |words| ==> Contains(text, words[i])
  {
    if words != [] {
      CountInMeaning(text, words[1..]);
      if MentionsAny(text, words[1..]) {
        var i :| 0 <= i < |words[1..]| && Contains(text, words[1..][i]);
        assert Contains(text, words[i + 1]);
      }
      if MentionsAny(text, words) && !Contains(text, words[0]) {
        var i :| 0 <= i < |words| && Contains(text, words[i]);
        assert words[1..][i - 1] == words[i];
      }
      if forall i :: 0 <= i < |words[1..]| ==> Contains(text, words[1..][i]) {
        if Contains(text, words[0]) {
          forall i | 0 <= i < |words| ensures Contains(text, words[i]) {
            if i > 0 { assert words[i] == words[1..][i - 1]; }
          }
        }
      } else {
        var i :| 0 <= i < |words[1..]| && !Contains(text, words[1..][i]);
        assert !Contains(text, words[i + 1]);
      }
    }
  }

  // ---------------------------------------------------------------------
  // extract_insights

  const InsightIndicators: seq<string> := [
    "according to", "research shows", "study finds", "data indicates",
    "analysis reveals", "evidence suggests", "findings show",
    "results demonstrate", "conclusion", "important", "significant",
    "key finding", "discovery", "breakthrough", "trend", "pattern"
  ]

  const TooShortForInsights: string := "Insufficient content for insight extraction"
  const NoClearInsights: string := "No clear insights extracted from content"

  /** The dictionary `extract_insights` returns. The short-content reply
      carries neither `topic` nor `content_length`. */
  datatype InsightReport = InsightReport(
    insights: seq<string>,
    count: nat,
    topic: Option<string>,
    contentLength: Option<nat>)

  /** A stripped sentence the indicator pass keeps: longer than 20
      characters and naming one of the indicator phrases. */
  predicate IndicatorSentence(s: string) {
    |s| > 20 && MentionsAny(Lower(s), InsightIndicators)
  }

  /** A raw sentence the numeric fallback keeps: it holds a digit and is
      longer than 30 characters before stripping. */
  predicate NumericSentence(s: string) {
    HasDigit(s) && |s| > 30
  }

  /** The indicator pass: each kept sentence, stripped and capitalised, in
      sentence order, duplicates included. */
  function IndicatorHits(sentences: seq<string>): (r: seq<string>)
    ensures forall k :: 0 <= k < |r| ==>
      exists i :: 0 <= i < |sentences| && IndicatorSentence(Strip(sentences[i]))
                  && r[k] == Capitalize(Strip(sentences[i]))
  {
    if sentences == [] then []
    else
      var s := Strip(sentences[0]);
      var rest := IndicatorHits(sentences[1..]);
      var r := (if IndicatorSentence(s) then [Capitalize(s)] else []) + rest;
      assert forall i :: 0 < i < |sentences| ==> sentences[i] == sentences[1..][i - 1];
      r
  }

  /** Every indicator sentence is among the hits. */
  lemma {:induction false} IndicatorHitsComplete(sentences: seq<string>, i: nat)
    requires i < |sentences| && IndicatorSentence(Strip(sentences[i]))
    ensures Capitalize(Strip(sentences[i])) in IndicatorHits(sentences)
  {
    if i > 0 {
      assert sentences[i] == sentences[1..][i - 1];
      IndicatorHitsComplete(sentences[1..], i - 1);
    }
  }

  /** `x` is some numeric sentence of `sentences`, stripped and
      capitalised. */
  ghost predicate NumericCandidate(sentences: seq<string>, x: string) {
    exists i :: 0 <= i < |sentences| && NumericSentence(sentences[i]) && x == Capitalize(Strip(sentences[i]))
  }

  /** The numeric fallback's candidates, stripped and capitalised, in
      sentence order. */
  function NumericCandidates(sentences: seq<string>): (r: seq<string>)
    ensures |r| <= |sentences|
    ensures forall k :: 0 <= k < |r| ==> NumericCandidate(sentences, r[k])
  {
    if sentences == [] then []
    else
      var rest := NumericCandidates(sentences[1..]);
      assert forall k :: 0 <= k < |rest| ==> NumericCandidate(sentences, rest[k]) by {
        forall k | 0 <= k < |rest| ensures NumericCandidate(sentences, rest[k]) {
          CandidateOfTail(sentences, rest[k]);
        }
      }
      if NumericSentence(sentences[0]) then
        var x := Capitalize(Strip(sentences[0]));
        assert NumericCandidate(sentences, x) by { assert sentences[0] == sentences[0]; }
        [x] + rest
      else rest
  }

  lemma CandidateOfTail(sentences: seq<string>, x: string)
    requires sentences != [] && NumericCandidate(sentences[1..], x)
    ensures NumericCandidate(sentences, x)
  {
    var i :| 0 <= i < |sentences[1..]| && NumericSentence(sentences[1..][i])
             && x == Capitalize(Strip(sentences[1..][i]));
    assert sentences[i + 1] == sentences[1..][i];
  }

  /** Every numeric sentence is among the candidates. */
  lemma {:induction false} NumericCandidatesComplete(sentences: seq<string>, i: nat)
    requires i < |sentences| && NumericSentence(sentences[i])
    ensures Capitalize(Strip(sentences[i])) in NumericCandidates(sentences)
  {
    if i > 0 {
      assert sentences[i] == sentences[1..][i - 1];
      NumericCandidatesComplete(sentences[1..], i - 1);
    }
  }

  /** The fallback loop as `extract_insights` writes it: the first 20 sentences,
      stopping once five insights are collected. It picks the first five
      candidates of the first 20 sentences. */
  method NumericFallback(sentences: seq<string>) returns (picks: seq<string>)
    ensures picks == Prefix(NumericCandidates(Prefix(sentences, 20)), 5)
  {
    var window := Prefix(sentences, 20);
    picks := [];
    var i := 0;
    while i < |window|
      invariant 0 <= i <= |window|
      invariant |picks| < 5 && picks == NumericCandidates(window[..i])
      decreases |window| - i
    {
      CandidatesStep(window, i);
      if NumericSentence(window[i]) {
        picks := picks + [Capitalize(Strip(window[i]))];
        if |picks| >= 5 {
          FiveFound(window, i + 1, picks);
          return;
        }
      }
      i := i + 1;
    }
    AllSeen(window, picks);
  }

  /** Five candidates in a prefix are the first five of the whole. */
  lemma FiveFound(window: seq<string>, i: nat, picks: seq<string>)
    requires i <= |window| && picks == NumericCandidates(window[..i]) && |picks| == 5
    ensures picks == Prefix(NumericCandidates(window), 5)
  {
    CandidatesPrefixGrows(window, i, 5);
  }

  /** Fewer than five candidates in the whole window are all of them. */
  lemma AllSeen(window: seq<string>, picks: seq<string>)
    requires picks == NumericCandidates(window[..|window|]) && |picks| < 5
    ensures picks == Prefix(NumericCandidates(window), 5)
  {
    assert window[..|window|] == window;
  }

  lemma CandidatesStep(sentences: seq<string>, i: nat)
    requires i < |sentences|
    ensures NumericCandidates(sentences[..i + 1]) ==
              NumericCandidates(sentences[..i])
              + (if NumericSentence(sentences[i]) then [Capitalize(Strip(sentences[i]))] else [])
  {
    assert sentences[..i + 1] == sentences[..i] + [sentences[i]];
    CandidatesAppend(sentences[..i], sentences[i]);
  }

  lemma {:induction false} CandidatesAppend(sentences: seq<string>, s: string)
    ensures NumericCandidates(sentences + [s]) ==
              NumericCandidates(sentences) + (if NumericSentence(s) then [Capitalize(Strip(s))] else [])
    decreases |sentences|
  {
    if sentences != [] {
      assert (sentences + [s])[1..] == sentences[1..] + [s];
      CandidatesAppend(sentences[1..], s);
    }
  }

  /** Once `k` candidates are found in a prefix, later sentences do not
      change the first `k`. */
  lemma {:induction false} CandidatesPrefixGrows(sentences: seq<string>, i: nat, k: nat)
    requires i <= |sentences| && |NumericCandidates(sentences[..i])| >= k
    ensures Prefix(NumericCandidates(sentences), k) == Prefix(NumericCandidates(sentences[..i]), k)
    decreases |sentences| - i
  {
    if i < |sentences| {
      CandidatesAppend(sentences[..i], sentences[i]);
      assert sentences[..i + 1] == sentences[..i] + [sentences[i]];
      CandidatesPrefixGrows(sentences, i + 1, k);
    } else {
      assert sentences[..i] == sentences;
    }
  }

  /** `list(set(xs))`: a duplicate-free arrangement of the elements of `xs`.
      Python leaves the order to string hashing, so the caller supplies it. */
  predicate ArrangesSet(arrangement: seq<string>, xs: seq<string>) {
    && Distinct(arrangement)
    && (forall i :: 0 <= i < |arrangement| ==> arrangement[i] in xs)
    && (forall x :: x in xs ==> x in arrangement)
  }

  lemma FirstIsMember(s: seq<string>)
    requires s != []
    ensures s[0] in s
  {
  }

  lemma ArrangesNothing(arrangement: seq<string>, xs: seq<string>)
    requires ArrangesSet(arrangement, xs) && xs == []
    ensures arrangement == []
  {
    if arrangement != [] {
      FirstIsMember(arrangement);
      assert false;
    }
  }

  /** `extract_insights(content, topic)`. `arrangement` is the order in
      which `list(set(...))` lists the indicator hits. */
  function ExtractInsights(content: string, topic: string, arrangement: seq<string>): (r: InsightReport)
    requires |Strip(content)| >= 50 ==>
               ArrangesSet(arrangement, IndicatorHits(Split(content, '.')))
    ensures |Strip(content)| < 50 ==>
              r == InsightReport([TooShortForInsights], 0, None, None)
    ensures |Strip(content)| >= 50 ==>
              && r.count == |r.insights|
              && r.topic == Some(topic)
              && r.contentLength == Some(|content|)
    ensures 1 <= |r.insights| <= 10
  {
    if |Strip(content)| < 50 then InsightReport([TooShortForInsights], 0, None, None)
    else
      var sentences := Split(content, '.');
      var unique := Prefix(arrangement, 10);
      var picked :=
        if unique != [] then unique
        else Prefix(NumericCandidates(Prefix(sentences, 20)), 5);
      var final := if picked != [] then picked else [NoClearInsights];
      InsightReport(final, |final|, Some(topic), Some(|content|))
  }

  /** When some sentence names an indicator, the insights are distinct
      indicator sentences (see `IndicatorHits` for which those are), and
      all of them when there are at most ten distinct ones. */
  lemma ExtractInsightsFromIndicators(content: string, topic: string, arrangement: seq<string>)
    requires |Strip(content)| >= 50
    requires ArrangesSet(arrangement, IndicatorHits(Split(content, '.')))
    requires IndicatorHits(Split(content, '.')) != []
    ensures var hits := IndicatorHits(Split(content, '.'));
      var r := ExtractInsights(content, topic, arrangement).insights;
      && Distinct(r)
      && (forall x :: x in r ==> x in hits)
      && (|arrangement| <= 10 ==> forall x :: x in hits ==> x in r)
  {
    TopTenOfSet(arrangement, IndicatorHits(Split(content, '.')));
  }

  /** The first ten of an arrangement of a non-empty set are distinct
      members of it, and all of them when the set has at most ten. */
  lemma TopTenOfSet(arrangement: seq<string>, hits: seq<string>)
    requires ArrangesSet(arrangement, hits) && hits != []
    ensures var u := Prefix(arrangement, 10);
      && u != []
      && Distinct(u)
      && (forall x :: x in u ==> x in hits)
      && (|arrangement| <= 10 ==> forall x :: x in hits ==> x in u)
  {
    assert hits[0] in hits;
    var u := Prefix(arrangement, 10);
    forall x | x in u ensures x in hits {
      var i :| 0 <= i < |u| && u[i] == x;
      assert arrangement[i] == x;
    }
  }

  /** When no sentence names an indicator, the insights are at most five
      numeric sentences among the first 20, in text order, or the
      placeholder exactly when there is none. */
  lemma ExtractInsightsFromNumbers(content: string, topic: string, arrangement: seq<string>)
    requires |Strip(content)| >= 50
    requires ArrangesSet(arrangement, IndicatorHits(Split(content, '.')))
    requires IndicatorHits(Split(content, '.')) == []
    ensures var cands := NumericCandidates(Prefix(Split(content, '.'), 20));
      var r := ExtractInsights(content, topic, arrangement).insights;
      && |r| <= 5
      && (r == [NoClearInsights] <==> cands == [])
      && (r != [NoClearInsights] ==> forall x :: x in r ==> x in cands)
  {
    assert |arrangement| == 0 by {
      ArrangesNothing(arrangement, IndicatorHits(Split(content, '.')));
    }
    var cands := NumericCandidates(Prefix(Split(content, '.'), 20));
    if cands != [] {
      assert cands[0] in cands;
      NumericNotPlaceholder(Prefix(Split(content, '.'), 20));
    }
  }

  lemma PlaceholderHasNoDigit()
    ensures !HasDigit(NoClearInsights)
  {
    forall j | 0 <= j < |NoClearInsights| ensures !IsDigit(NoClearInsights[j]) {
      assert NoClearInsights[j] in "No clear insights extracted from content";
    }
  }

  /** The placeholder never comes out of the numeric fallback: a candidate
      is longer than the placeholder or starts differently. */
  lemma NumericNotPlaceholder(sentences: seq<string>)
    ensures NoClearInsights !in NumericCandidates(sentences)
  {
    if NoClearInsights in NumericCandidates(sentences) {
      var k :| 0 <= k < |NumericCandidates(sentences)| && NumericCandidates(sentences)[k] == NoClearInsights;
      assert NumericCandidate(sentences, NoClearInsights);
      var i :| 0 <= i < |sentences| && NumericSentence(sentences[i])
               && NoClearInsights == Capitalize(Strip(sentences[i]));
      StripKeepsDigit(sentences[i]);
      CapitalizeKeepsDigit(Strip(sentences[i]));
      PlaceholderHasNoDigit();
    }
  }

  // ---------------------------------------------------------------------
  // summarize_content

  const ImportantWords: seq<string> := [
    "important", "significant", "key", "main", "primary", "major",
    "research", "study", "analysis", "finding", "result", "conclusion",
    "data", "evidence", "shows", "indicates", "suggests", "reveals"
  ]

  const SummaryTooShort: string := "Content too short for meaningful summary."
  const NoSummary: string := "Unable to generate summary."

  /** The stripped pieces between periods that are longer than 20
      characters, in text order. */
  function LongSentences(pieces: seq<string>): (r: seq<string>)
    ensures |r| <= |pieces|
    ensures forall k :: 0 <= k < |r| ==> |r[k]| > 20
    ensures forall k :: 0 <= k < |r| ==>
      exists i :: 0 <= i < |pieces| && r[k] == Strip(pieces[i])
  {
    if pieces == [] then []
    else
      var s := Strip(pieces[0]);
      var rest := LongSentences(pieces[1..]);
      assert forall i :: 0 < i < |pieces| ==> pieces[i] == pieces[1..][i - 1];
      (if |s| > 20 then [s] else []) + rest
  }

  /** Every long enough piece is among the sentences. */
  lemma {:induction false} LongSentencesComplete(pieces: seq<string>, i: nat)
    requires i < |pieces| && |Strip(pieces[i])| > 20
    ensures Strip(pieces[i]) in LongSentences(pieces)
  {
    if i > 0 {
      assert pieces[i] == pieces[1..][i - 1];
      LongSentencesComplete(pieces[1..], i - 1);
    }
  }

  /** The heuristic score of the `i`-th of `n` sentences: two for a digit,
      one per important word, one for not being first or last, one for a
      length between 50 and 200. */
  function SentenceScore(s: string, i: nat, n: nat): (score: nat)
    ensures score <= 2 + |ImportantWords| + 1 + 1
    ensures HasDigit(s) ==> score >= 2
  {
    (if HasDigit(s) then 2 else 0)
    + CountIn(Lower(s), ImportantWords)
    + (if 0 < i < n - 1 then 1 else 0)
    + (if 50 <= |s| <= 200 then 1 else 0)
  }

  /** A sentence with its position and score. */
  datatype Scored = Scored(pos: nat, text: string, score: int)

  function ScoreAll(sentences: seq<string>): (r: seq<Scored>)
    ensures |r| == |sentences|
    ensures forall i :: 0 <= i < |r| ==>
      r[i] == Scored(i, sentences[i], SentenceScore(sentences[i], i, |sentences|))
  {
    seq(|sentences|, i requires 0 <= i < |sentences| =>
      Scored(i, sentences[i], SentenceScore(sentences[i], i, |sentences|)))
  }

  /** `a` precedes `b` in `sorted(scored, key=score, reverse=True)`: a higher
      score first, and on a tie the earlier sentence, since the sort is
      stable. */
  predicate Ahead(a: Scored, b: Scored) {
    a.score > b.score || (a.score == b.score && a.pos < b.pos)
  }

  predicate Ranked(xs: seq<Scored>) {
    forall i, j :: 0 <= i < j < |xs| ==> !Ahead(xs[j], xs[i])
  }

  function InsertRanked(x: Scored, xs: seq<Scored>): (r: seq<Scored>)
    requires Ranked(xs)
    ensures Ranked(r)
    ensures multiset(r) == multiset(xs) + multiset{x}
  {
    if xs == [] then [x]
    else if Ahead(x, xs[0]) then
      assert forall j :: 0 <= j < |xs| ==> !Ahead(xs[j], x) by {
        forall j | 0 <= j < |xs| ensures !Ahead(xs[j], x) {
          if j > 0 { assert !Ahead(xs[j], xs[0]); }
        }
      }
      [x] + xs
    else
      var rest := InsertRanked(x, xs[1..]);
      InsertRankedStep(x, xs, rest);
      [xs[0]] + rest
  }

  /** Inserting behind the head of a ranking: the head stays in front of
      the rest with the new element inserted. */
  lemma InsertRankedStep(x: Scored, xs: seq<Scored>, rest: seq<Scored>)
    requires Ranked(xs) && xs != [] && !Ahead(x, xs[0])
    requires Ranked(rest) && multiset(rest) == multiset(xs[1..]) + multiset{x}
    ensures Ranked([xs[0]] + rest)
    ensures multiset([xs[0]] + rest) == multiset(xs) + multiset{x}
  {
    forall k | 0 <= k < |rest| ensures !Ahead(rest[k], xs[0]) {
      assert rest[k] in multiset(rest);
      if rest[k] != x {
        assert rest[k] in xs[1..];
        var m :| 0 <= m < |xs[1..]| && xs[1..][m] == rest[k];
        assert xs[m + 1] == rest[k];
      }
    }
    var r := [xs[0]] + rest;
    forall i, j | 0 <= i < j < |r| ensures !Ahead(r[j], r[i]) {
      assert r[j] == rest[j - 1];
      if i > 0 { assert r[i] == rest[i - 1]; }
    }
    assert xs == [xs[0]] + xs[1..];
  }

  /** The stable descending sort by score. */
  function RankByScore(xs: seq<Scored>): (r: seq<Scored>)
    ensures Ranked(r)
    ensures multiset(r) == multiset(xs)
  {
    if xs == [] then []
    else
      assert xs == [xs[0]] + xs[1..];
      InsertRanked(xs[0], RankByScore(xs[1..]))
  }

  /** A sentence paired with the position `sentences.index` finds for it. */
  datatype Placed = Placed(at: nat, text: string)

  predicate Ordered(ps: seq<Placed>) {
    forall i, j :: 0 <= i < j < |ps| ==> ps[i].at <= ps[j].at
  }

  function InsertOrdered(p: Placed, ps: seq<Placed>): (r: seq<Placed>)
    requires Ordered(ps)
    ensures Ordered(r)
    ensures multiset(r) == multiset(ps) + multiset{p}
    ensures multiset(Texts(r)) == multiset(Texts(ps)) + multiset{p.text}
  {
    if ps == [] then
      TextsFront(p, ps);
      [p]
    else if p.at <= ps[0].at then
      TextsFront(p, ps);
      [p] + ps
    else
      var rest := InsertOrdered(p, ps[1..]);
      InsertOrderedStep(p, ps, rest);
      TextsLater(p, ps, rest);
      [ps[0]] + rest
  }

  lemma TextsFront(p: Placed, ps: seq<Placed>)
    ensures multiset(Texts([p] + ps)) == multiset(Texts(ps)) + multiset{p.text}
  {
    TextsHead([p] + ps);
    assert ([p] + ps)[1..] == ps;
  }

  lemma TextsLater(p: Placed, ps: seq<Placed>, rest: seq<Placed>)
    requires ps != [] && multiset(Texts(rest)) == multiset(Texts(ps[1..])) + multiset{p.text}
    ensures multiset(Texts([ps[0]] + rest)) == multiset(Texts(ps)) + multiset{p.text}
  {
    TextsHead(ps);
    TextsFront(ps[0], rest);
  }

  /** The texts of a non-empty sequence: the first one's and the rest's. */
  lemma TextsHead(xs: seq<Placed>)
    requires xs != []
    ensures multiset(Texts(xs)) == multiset{xs[0].text} + multiset(Texts(xs[1..]))
  {
    assert xs == [xs[0]] + xs[1..];
    TextsAppend([xs[0]], xs[1..]);
    assert Texts([xs[0]]) == [xs[0].text];
  }

  lemma InsertOrderedStep(p: Placed, ps: seq<Placed>, rest: seq<Placed>)
    requires Ordered(ps) && ps != [] && ps[0].at < p.at
    requires Ordered(rest) && multiset(rest) == multiset(ps[1..]) + multiset{p}
    ensures Ordered([ps[0]] + rest)
    ensures multiset([ps[0]] + rest) == multiset(ps) + multiset{p}
  {
    forall k | 0 <= k < |rest| ensures ps[0].at <= rest[k].at {
      assert rest[k] in multiset(rest);
      if rest[k] != p {
        assert rest[k] in ps[1..];
        var m :| 0 <= m < |ps[1..]| && ps[1..][m] == rest[k];
        assert ps[m + 1] == rest[k];
      }
    }
    var r := [ps[0]] + rest;
    forall i, j | 0 <= i < j < |r| ensures r[i].at <= r[j].at {
      assert r[j] == rest[j - 1];
      if i > 0 { assert r[i] == rest[i - 1]; }
    }
    assert ps == [ps[0]] + ps[1..];
  }

  /** `selected_indices.sort(key=lambda x: x[0])` */
  function OrderByPlace(ps: seq<Placed>): (r: seq<Placed>)
    ensures Ordered(r)
    ensures multiset(r) == multiset(ps)
    ensures multiset(Texts(r)) == multiset(Texts(ps))
  {
    if ps == [] then []
    else
      assert ps == [ps[0]] + ps[1..];
      TextsHead(ps);
      InsertOrdered(ps[0], OrderByPlace(ps[1..]))
  }

  /** Each chosen sentence with the position of its first occurrence. */
  function PlaceAll(sentences: seq<string>, chosen: seq<Scored>): (r: seq<Placed>)
    ensures |r| == |chosen|
    ensures forall k :: 0 <= k < |r| ==>
      r[k] == Placed(IndexOf(sentences, chosen[k].text), chosen[k].text)
  {
    seq(|chosen|, k requires 0 <= k < |chosen| =>
      Placed(IndexOf(sentences, chosen[k].text), chosen[k].text))
  }

  function Texts(ps: seq<Placed>): (r: seq<string>)
    ensures |r| == |ps|
    ensures forall k :: 0 <= k < |r| ==> r[k] == ps[k].text
  {
    seq(|ps|, k requires 0 <= k < |ps| => ps[k].text)
  }

  /** The sentences the summary keeps, for `k = max_sentences`: the first
      `k` of the ranking (Python's slice, so a negative `k` drops from the
      end), put back in the order of their first occurrence in the text. */
  function SummaryPicks(sentences: seq<string>, k: int): (out: seq<string>)
    ensures var ranked := RankByScore(ScoreAll(sentences));
      var chosen := PyPrefix(ranked, k);
      && |out| == |chosen|
      && multiset(out) == multiset(Texts(PlaceAll(sentences, chosen)))
      && (forall i, j :: 0 <= i < j < |out| ==>
            IndexOf(sentences, out[i]) <= IndexOf(sentences, out[j]))
  {
    var ranked := RankByScore(ScoreAll(sentences));
    var chosen := PyPrefix(ranked, k);
    var unsorted := PlaceAll(sentences, chosen);
    var placed := OrderByPlace(unsorted);
    assert |placed| == |chosen| by {
      assert |multiset(placed)| == |multiset(unsorted)|;
    }
    forall i | 0 <= i < |placed| ensures placed[i].at == IndexOf(sentences, placed[i].text) {
      assert placed[i] in multiset(unsorted);
      var m :| 0 <= m < |unsorted| && unsorted[m] == placed[i];
    }
    Texts(placed)
  }

  /** No sentence the summary leaves out outranks one it keeps: it has a
      lower score, or the same score and a later position. */
  lemma SummaryKeepsBest(sentences: seq<string>, k: int)
    ensures var all := ScoreAll(sentences);
      var chosen := PyPrefix(RankByScore(all), k);
      forall p, q :: 0 <= p < |all| && 0 <= q < |all| && all[p] in chosen && all[q] !in chosen ==>
        !Ahead(all[q], all[p])
  {
    var all := ScoreAll(sentences);
    var ranked := RankByScore(all);
    var chosen := PyPrefix(ranked, k);
    forall p, q | 0 <= p < |all| && 0 <= q < |all| && all[p] in chosen && all[q] !in chosen
      ensures !Ahead(all[q], all[p])
    {
      assert all[q] in multiset(ranked);
      var j :| 0 <= j < |ranked| && ranked[j] == all[q];
      var i :| 0 <= i < |chosen| && chosen[i] == all[p];
      assert ranked[i] == chosen[i];
    }
  }

  /** The summary keeps `min(k, n)` of the `n` sentences for a
      non-negative `k`. */
  lemma SummaryCount(sentences: seq<string>, k: nat)
    ensures |SummaryPicks(sentences, k)| == if k < |sentences| then k else |sentences|
  {
    var all := ScoreAll(sentences);
    assert |RankByScore(all)| == |all| by {
      assert |multiset(RankByScore(all))| == |multiset(all)|;
    }
  }

  lemma TextsAppend(a: seq<Placed>, b: seq<Placed>)
    ensures Texts(a + b) == Texts(a) + Texts(b)
  {
  }

  /** `summarize_content(content, max_sentences)`. */
  function Summarize(content: string, maxSentences: int): (r: string)
    ensures |Strip(content)| < 100 ==> r == SummaryTooShort
    ensures var sentences := LongSentences(Split(content, '.'));
      |Strip(content)| >= 100 && |sentences| <= maxSentences ==> r == Join(sentences, ". ") + "."
    ensures var sentences := LongSentences(Split(content, '.'));
      var picks := SummaryPicks(sentences, maxSentences);
      |Strip(content)| >= 100 && |sentences| > maxSentences ==>
        r == (if picks != [] then Join(picks, ". ") + "." else NoSummary)
  {
    if |Strip(content)| < 100 then SummaryTooShort
    else
      var sentences := LongSentences(Split(content, '.'));
      if |sentences| <= maxSentences then Join(sentences, ". ") + "."
      else
        var picks := SummaryPicks(sentences, maxSentences);
        if picks != [] then Join(picks, ". ") + "." else NoSummary
  }

  /** Every sentence a long enough text's summary keeps appears in it: all
      qualifying sentences when there are at most `maxSentences`, else
      every pick. */
  lemma SummaryHolds(content: string, maxSentences: int, k: nat)
    requires |Strip(content)| >= 100
    ensures var sentences := LongSentences(Split(content, '.'));
      |sentences| <= maxSentences && k < |sentences| ==>
        Contains(Summarize(content, maxSentences), sentences[k])
    ensures var sentences := LongSentences(Split(content, '.'));
      var picks := SummaryPicks(sentences, maxSentences);
      |sentences| > maxSentences && k < |picks| ==>
        Contains(Summarize(content, maxSentences), picks[k])
  {
    var sentences := LongSentences(Split(content, '.'));
    var picks := SummaryPicks(sentences, maxSentences);
    var kept := if |sentences| <= maxSentences then sentences else picks;
    if k < |kept| {
      var joined := Join(kept, ". ");
      JoinContainsPart(kept, ". ", k);
      assert (joined + ".")[..|joined|] == joined;
      ContainsSlice(joined + ".", 0, |joined|, kept[k]);
    }
  }

  // ---------------------------------------------------------------------
  // analyze_sentiment

  const PositiveWords: seq<string> := [
    "good", "great", "excellent", "positive", "beneficial", "improvement",
    "success", "effective", "promising", "breakthrough", "advance", "progress"
  ]

  const NegativeWords: seq<string> := [
    "bad", "poor", "negative", "harmful", "decline", "failure", "ineffective",
    "problem", "issue", "concern", "risk", "challenge", "limitation"
  ]

  datatype Sentiment = Positive | Negative | Neutral {
    function Label(): string {
      match this
      case Positive => "positive"
      case Negative => "negative"
      case Neutral => "neutral"
    }
  }

  /** A fraction `num / den`, kept exact where the program divides two
      counts into a float. */
  datatype Ratio = Ratio(num: int, den: nat) {
    predicate AtMostOne() { den > 0 && 0 <= num <= den }
    /** `self >= other` for positive denominators, without division. */
    predicate AtLeast(other: Ratio) { num * other.den >= other.num * den }
    predicate AboveHalf() { den > 0 && 2 * num > den }
    predicate IsHalf() { den > 0 && 2 * num == den }
  }

  /** The dictionary `analyze_sentiment` returns. `counts` holds the
      positive and negative indicator counts, present only when some
      indicator occurred. */
  datatype SentimentReport = SentimentReport(
    sentiment: Sentiment,
    confidence: Ratio,
    counts: Option<(nat, nat)>,
    reason: string)

  function PositiveCount(content: string): nat {
    CountIn(Lower(content), PositiveWords)
  }

  function NegativeCount(content: string): nat {
    CountIn(Lower(content), NegativeWords)
  }

  /** `analyze_sentiment(content)` */
  function AnalyzeSentiment(content: string): (r: SentimentReport)
    ensures content == [] ==> r == SentimentReport(Neutral, Ratio(0, 1), None, "No content provided")
    ensures content != [] ==>
      && (r.sentiment == Positive <==> PositiveCount(content) > NegativeCount(content))
      && (r.sentiment == Negative <==> NegativeCount(content) > PositiveCount(content))
      && (r.sentiment == Neutral ==> r.confidence.IsHalf())
    ensures var pos, neg := PositiveCount(content), NegativeCount(content);
      && (content != [] && r.sentiment == Positive ==> r.confidence == Ratio(pos, pos + neg))
      && (content != [] && r.sentiment == Negative ==> r.confidence == Ratio(neg, pos + neg))
      && (content != [] && r.sentiment == Neutral ==> r.confidence == Ratio(1, 2))
    ensures r.confidence.AtMostOne()
    ensures r.sentiment != Neutral ==> r.confidence.AboveHalf()
    ensures r.counts.Some? <==> content != [] && PositiveCount(content) + NegativeCount(content) > 0
    ensures r.counts.Some? ==> r.counts.value == (PositiveCount(content), NegativeCount(content))
  {
    if content == [] then SentimentReport(Neutral, Ratio(0, 1), None, "No content provided")
    else
      var pos := PositiveCount(content);
      var neg := NegativeCount(content);
      var total := pos + neg;
      if total == 0 then SentimentReport(Neutral, Ratio(1, 2), None, "No clear sentiment indicators")
      else
        var reason := "Based on " + NatToString(total) + " sentiment indicators found";
        if pos > neg then SentimentReport(Positive, Ratio(pos, total), Some((pos, neg)), reason)
        else if neg > pos then SentimentReport(Negative, Ratio(neg, total), Some((pos, neg)), reason)
        else SentimentReport(Neutral, Ratio(1, 2), Some((pos, neg)), reason)
  }
}
