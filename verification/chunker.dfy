/** The `chunk_documents` tool: each document is cut into overlapping
    windows that prefer to end just after a sentence boundary, and every
    window becomes a chunk record that names its document, its position in
    the document and how many chunks the document has. */
module Chunker {
  import opened Wrappers
  import opened Seqs
  import opened Text

  datatype Document = Document(fileName: Option<string>, content: Option<string>, topic: Option<string>)

  /** A chunk record. `span` holds `start_pos`/`end_pos`, which only the
      windows of a split document carry. */
  datatype Chunk = Chunk(
    chunkId: string,
    fileName: string,
    content: string,
    topic: string,
    index: nat,
    total: nat,
    span: Option<(int, int)>)

  datatype ChunkOutcome = Chunked(chunks: seq<Chunk>) | ChunkingFailed(message: string)

  /** One window `[start, end)` of a document, as the loop computes it. */
  datatype Window = Window(start: int, end: int)

  const DefaultChunkSize := 1000
  const DefaultOverlap := 200
  /** How far back from the nominal end the boundary search may go. */
  const LookBack := 200

  const ChunkingFailure := "Document chunking failed: "
  /** What `str(KeyError('file_name'))` renders as. */
  const MissingFileName := "'file_name'"
  const IndexOutOfRange := "string index out of range"

  predicate IsStop(c: char) {
    c == '.' || c == '!' || c == '?'
  }

  function Max(a: int, b: int): int {
    if a < b then b else a
  }

  /** `s[i]` for an index Python accepts: a negative one counts from the end. */
  function PyAt(s: string, i: int): char
    requires -|s| <= i < |s|
  {
    if i < 0 then s[|s| + i] else s[i]
  }

  /** No sentence ending at the positions above `lo` up to `hi`, all of
      which Python accepts as indices. */
  predicate NoStopIn(s: string, lo: int, hi: int) {
    forall i :: lo < i <= hi ==> NoStopAt(s, i)
  }

  /** Python accepts `i` as an index of `s` and finds no sentence ending there. */
  predicate NoStopAt(s: string, i: int) {
    -|s| <= i < |s| && !IsStop(PyAt(s, i))
  }

  /** The `for i in range(hi, lo, -1)` scan for a sentence ending: the first
      position, going down from `hi` and staying above `lo`, whose character
      is `.`, `!` or `?`. An Err is the IndexError of a position below
      `-len(s)`. */
  function ScanBack(s: string, hi: int, lo: int): (r: Result<Option<int>, string>)
    requires hi < |s|
    ensures lo >= -|s| - 1 ==> r.Ok?
    ensures r.Ok? && r.value.Some? ==> lo < r.value.value <= hi && -|s| <= r.value.value && IsStop(PyAt(s, r.value.value))
    ensures r.Ok? && r.value.Some? ==> NoStopIn(s, r.value.value, hi)
    ensures r.Ok? && r.value.None? ==> NoStopIn(s, lo, hi)
    ensures r.Err? ==> r.error == IndexOutOfRange
    decreases hi - lo
  {
    if hi <= lo then Ok(None)
    else if hi < -|s| then Err(IndexOutOfRange)
    else if IsStop(PyAt(s, hi)) then Ok(Some(hi))
    else
      var r := ScanBack(s, hi - 1, lo);
      NoStopGrow(s, lo, hi);
      if r.Ok? && r.value.Some? then NoStopGrow(s, r.value.value, hi); r else r
  }

  lemma NoStopGrow(s: string, lo: int, hi: int)
    requires -|s| <= hi < |s| && !IsStop(PyAt(s, hi))
    ensures NoStopIn(s, lo, hi - 1) ==> NoStopIn(s, lo, hi)
  {
    if NoStopIn(s, lo, hi - 1) {
      forall i | lo < i <= hi
        ensures NoStopAt(s, i)
      {
        if i < hi {
          assert lo < i <= hi - 1;
        }
      }
    }
  }

  /** Where the window that starts at `start` ends: `start + chunk_size`,
      or, when that is inside the text, one past the nearest sentence ending
      at or below it that lies above both `start + chunk_size // 2` and
      `start + chunk_size - 200`. */
  function ChunkEnd(s: string, start: int, size: int): (r: Result<int, string>)
    ensures start >= 0 ==> r.Ok?
    ensures r.Ok? && start + size >= |s| ==> r.value == start + size
    ensures start >= 0 && r.Ok? && start + size < |s| ==>
      var lo := Max(start + size / 2, start + size - LookBack);
      || (r.value == start + size && NoStopIn(s, lo, start + size))
      || (&& lo + 2 <= r.value <= start + size + 1
          && IsStop(s[r.value - 1])
          && NoStopIn(s, r.value - 1, start + size))
  {
    var end := start + size;
    if end < |s| then
      var lo := Max(start + size / 2, end - LookBack);
      var found :- ScanBack(s, end, lo);
      Ok(if found.Some? then found.value + 1 else end)
    else
      Ok(end)
  }

  /** One pass of the loop body as `chunk_documents` writes it: the window's end
      and the next start, `end - overlap`. */
  function StepAsWritten(s: string, start: int, size: int, overlap: int): (r: Result<(int, int), string>)
    ensures r.Ok? ==> ChunkEnd(s, start, size) == Ok(r.value.0) && r.value.1 == r.value.0 - overlap
    ensures r.Err? ==> ChunkEnd(s, start, size).Err?
  {
    var end :- ChunkEnd(s, start, size);
    Ok((end, end - overlap))
  }

  /** With chunk_size 10 and overlap 9 (overlap below chunk_size),
      `chunk_documents`' loop returns to the same start forever: from 0 it moves to
      -2, and from -2 it moves to -2 again, appending an empty chunk each
      time. */
  lemma AsWrittenStalls()
    ensures var s := "aaaaaa.aaaaaaaaaaaaa";
      && StepAsWritten(s, 0, 10, 9) == Ok((7, -2))
      && StepAsWritten(s, -2, 10, 9) == Ok((7, -2))
      && -2 < |s|
      && PySlice(s, -2, 7) == []
  {
    var s := "aaaaaa.aaaaaaaaaaaaa";
    assert IsStop(s[6]);
    assert ScanBack(s, 10, 5) == Ok(Some(6)) by {
      assert !IsStop(s[10]) && !IsStop(s[9]) && !IsStop(s[8]) && !IsStop(s[7]);
    }
    assert ScanBack(s, 8, 3) == Ok(Some(6)) by {
      assert !IsStop(s[8]) && !IsStop(s[7]);
    }
  }

  /** With chunk_size 10 and overlap 20 (overlap above chunk_size), on a
      15-character text without a sentence ending, `chunk_documents`' loop
      moves the start back each pass, 0, -10, -20, -30, until the boundary
      scan reads below `-len(content)` and raises the IndexError that the
      call turns into its "Document chunking failed" record. */
  lemma AsWrittenRunsOffFront()
    ensures var s := seq(15, _ => 'a');
      && StepAsWritten(s, 0, 10, 20) == Ok((10, -10))
      && StepAsWritten(s, -10, 10, 20) == Ok((0, -20))
      && StepAsWritten(s, -20, 10, 20) == Ok((-10, -30))
      && StepAsWritten(s, -30, 10, 20) == Err(IndexOutOfRange)
  {
    var s := seq(15, _ => 'a');
    ScanFindsNone(s, 10, 5);
    ScanFindsNone(s, 0, -5);
    ScanFindsNone(s, -10, -15);
    assert ScanBack(s, -20, -25) == Err(IndexOutOfRange);
  }

  /** In a text without sentence endings, a scan that stays within the
      indices Python accepts finds nothing. */
  lemma ScanFindsNone(s: string, hi: int, lo: int)
    requires hi < |s| && lo >= -|s| - 1
    requires forall i :: 0 <= i < |s| ==> !IsStop(s[i])
    ensures ScanBack(s, hi, lo) == Ok(None)
  {
  }

  /** An overlap of at least the chunk size never moves the loop forward
      from a window that has no sentence ending to cut at. */
  lemma AsWrittenNoProgress(s: string, start: nat, size: int, overlap: int)
    requires 1 <= size <= overlap && start + size < |s|
    requires NoStopIn(s, Max(start + size / 2, start + size - LookBack), start + size)
    ensures StepAsWritten(s, start, size, overlap) == Ok((start + size, start + size - overlap))
    ensures start + size - overlap <= start
  {
    var r := ScanBack(s, start + size, Max(start + size / 2, start + size - LookBack));
    assert r.Ok? && r.value.Some? ==> NoStopAt(s, r.value.value);
  }

  /** The next start, clamped so the loop always moves forward. */
  function NextStart(start: nat, end: int, overlap: int): (next: nat)
    ensures next > start
    ensures next >= end - overlap
  {
    Max(end - overlap, start + 1)
  }

  /** The clamp never fires when the chunk size is positive and the overlap
      is below it and at most `chunk_size // 2 + 1` (the defaults 1000 and
      200 qualify): there the clamped step is `chunk_documents`' own step. */
  lemma StepAgrees(s: string, start: nat, size: int, overlap: int)
    requires 1 <= size && overlap < size && overlap <= size / 2 + 1
    ensures var end := ChunkEnd(s, start, size).value;
      NextStart(start, end, overlap) == end - overlap
  {
  }

  /** The windows the loop produces for one document, from `start` on. */
  function Windows(s: string, start: nat, size: int, overlap: int): (ws: seq<Window>)
    ensures |ws| <= |s| - start || (ws == [] && start >= |s|)
    ensures forall k :: 0 <= k < |ws| ==> start <= ws[k].start < |s|
    ensures ws != [] <==> start < |s|
    decreases |s| - start
  {
    if start >= |s| then []
    else
      var end := ChunkEnd(s, start, size).value;
      [Window(start, end)] + Windows(s, NextStart(start, end, overlap), size, overlap)
  }

  predicate StartsIncrease(ws: seq<Window>) {
    forall j, k :: 0 <= j < k < |ws| ==> ws[j].start < ws[k].start
  }

  /** Window starts strictly increase. */
  lemma {:induction false} WindowsAdvance(s: string, start: nat, size: int, overlap: int)
    ensures StartsIncrease(Windows(s, start, size, overlap))
    decreases |s| - start
  {
    if start < |s| {
      var end := ChunkEnd(s, start, size).value;
      var next := NextStart(start, end, overlap);
      var rest := Windows(s, next, size, overlap);
      WindowsAdvance(s, next, size, overlap);
      var ws := Windows(s, start, size, overlap);
      assert ws == [Window(start, end)] + rest;
      forall j, k | 0 <= j < k < |ws| ensures ws[j].start < ws[k].start {
        assert ws[k] == rest[k - 1];
        assert next <= rest[k - 1].start;
        if j > 0 { assert ws[j] == rest[j - 1]; }
      }
    }
  }

  /** With a positive chunk size and a non-negative overlap, each window is
      non-empty, each starts no later than its predecessor ends, and the
      last one reaches the end of the text. */
  lemma {:induction false} WindowsChain(s: string, start: nat, size: int, overlap: int)
    requires size >= 1 && overlap >= 0
    ensures var ws := Windows(s, start, size, overlap);
      && (forall k :: 0 <= k < |ws| ==> ws[k].start < ws[k].end)
      && (forall k :: 0 <= k < |ws| - 1 ==> ws[k + 1].start <= ws[k].end)
      && (ws != [] ==> ws[0].start == start && ws[|ws| - 1].end >= |s|)
    decreases |s| - start
  {
    if start < |s| {
      var end := ChunkEnd(s, start, size).value;
      var next := NextStart(start, end, overlap);
      var rest := Windows(s, next, size, overlap);
      WindowsChain(s, next, size, overlap);
      var ws := Windows(s, start, size, overlap);
      assert ws == [Window(start, end)] + rest;
      forall k | 0 <= k < |ws| - 1 ensures ws[k + 1].start <= ws[k].end {
        if k > 0 { assert ws[k] == rest[k - 1] && ws[k + 1] == rest[k]; }
      }
    }
  }

  /** Position `p` lies inside one of the windows. */
  predicate Covers(ws: seq<Window>, p: int) {
    exists k :: 0 <= k < |ws| && ws[k].start <= p < ws[k].end
  }

  /** Every position of the text from `start` on lies inside some window. */
  lemma {:induction false} WindowsCover(s: string, start: nat, size: int, overlap: int, p: int)
    requires size >= 1 && overlap >= 0
    requires start <= p < |s|
    ensures Covers(Windows(s, start, size, overlap), p)
    decreases |s| - start
  {
    var ws := Windows(s, start, size, overlap);
    var end := ChunkEnd(s, start, size).value;
    var next := NextStart(start, end, overlap);
    var rest := Windows(s, next, size, overlap);
    assert ws == [Window(start, end)] + rest;
    if p < end {
      assert ws[0].start <= p < ws[0].end;
    } else {
      WindowsCover(s, next, size, overlap, p);
      var k :| 0 <= k < |rest| && rest[k].start <= p < rest[k].end;
      assert ws[k + 1] == rest[k];
      assert 0 <= k + 1 < |ws| && ws[k + 1].start <= p < ws[k + 1].end;
    }
  }

  /** The window loop of `chunk_documents`, computing the windows of one
      document. */
  method SplitDocument(s: string, size: int, overlap: int) returns (ws: seq<Window>)
    ensures ws == Windows(s, 0, size, overlap)
    ensures StartsIncrease(ws)
    ensures size >= 1 && overlap >= 0 && s != [] ==>
      && ws[0].start == 0
      && ws[|ws| - 1].end >= |s|
      && (forall k :: 0 <= k < |ws| - 1 ==> ws[k + 1].start <= ws[k].end)
  {
    ws := [];
    var start: nat := 0;
    while start < |s|
      invariant ws + Windows(s, start, size, overlap) == Windows(s, 0, size, overlap)
      decreases |s| - start
    {
      var end := ChunkEnd(s, start, size).value;
      ghost var rest := Windows(s, NextStart(start, end, overlap), size, overlap);
      assert Windows(s, start, size, overlap) == [Window(start, end)] + rest;
      AppendAssoc(ws, [Window(start, end)], rest);
      ws := ws + [Window(start, end)];
      start := NextStart(start, end, overlap);
    }
    assert ws + [] == ws;
    WindowsAdvance(s, 0, size, overlap);
    if size >= 1 && overlap >= 0 {
      WindowsChain(s, 0, size, overlap);
    }
  }

  /** `f"{file_name}_chunk_{k}"` */
  function ChunkId(name: string, k: nat): string {
    name + "_chunk_" + NatToString(k)
  }

  /** Two chunks of one document never share an id. */
  lemma ChunkIdsDistinct(name: string, j: nat, k: nat)
    requires j != k
    ensures ChunkId(name, j) != ChunkId(name, k)
  {
    var p := name + "_chunk_";
    if ChunkId(name, j) == ChunkId(name, k) {
      assert NatToString(j) == ChunkId(name, j)[|p|..];
      assert NatToString(k) == ChunkId(name, k)[|p|..];
      NatToStringRoundTrip(j);
      NatToStringRoundTrip(k);
      assert false;
    }
  }

  /** The chunk record for the `k`-th window of a split document; its total
      is filled in once the whole document is split. */
  function WindowChunk(name: string, s: string, topic: string, w: Window, k: nat): (c: Chunk)
    ensures c.fileName == name && c.index == k && c.span == Some((w.start, w.end))
    ensures c.chunkId == ChunkId(name, k)
    ensures 0 <= w.start <= |s| && w.start <= w.end ==> c.content == s[w.start..if w.end < |s| then w.end else |s|]
  {
    Chunk(ChunkId(name, k), name, PySlice(s, w.start, w.end), topic, k, 0, Some((w.start, w.end)))
  }

  function WindowChunks(name: string, s: string, topic: string, ws: seq<Window>): (cs: seq<Chunk>)
    ensures |cs| == |ws|
    ensures forall k :: 0 <= k < |cs| ==> cs[k] == WindowChunk(name, s, topic, ws[k], k)
  {
    seq(|ws|, k requires 0 <= k < |ws| => WindowChunk(name, s, topic, ws[k], k))
  }

  /** Chunk `c` spans position `p` of `s` and holds the character there. */
  predicate HoldsPosition(c: Chunk, s: string, p: int) {
    && c.span.Some?
    && c.span.value.0 <= p < c.span.value.1
    && 0 <= p < |s|
    && p - c.span.value.0 < |c.content|
    && c.content[p - c.span.value.0] == s[p]
  }

  predicate SomeChunkHolds(cs: seq<Chunk>, s: string, p: int) {
    exists k :: 0 <= k < |cs| && HoldsPosition(cs[k], s, p)
  }

  /** A split document's chunks, read in order, give back its text: each
      chunk is the text between its window's bounds, and the windows cover
      every position. */
  lemma ChunksCoverText(name: string, s: string, topic: string, size: int, overlap: int, p: int)
    requires size >= 1 && overlap >= 0 && 0 <= p < |s|
    ensures SomeChunkHolds(WindowChunks(name, s, topic, Windows(s, 0, size, overlap)), s, p)
  {
    var ws := Windows(s, 0, size, overlap);
    var cs := WindowChunks(name, s, topic, ws);
    WindowsCover(s, 0, size, overlap, p);
    var k :| 0 <= k < |ws| && ws[k].start <= p < ws[k].end;
    assert 0 <= ws[k].start by {
      assert 0 <= ws[k].start < |s|;
    }
    WindowChunkHolds(name, s, topic, ws[k], k, p);
    assert cs[k] == WindowChunk(name, s, topic, ws[k], k);
  }

  /** The chunk of a window holds every position of the text it spans. */
  lemma WindowChunkHolds(name: string, s: string, topic: string, w: Window, k: nat, p: int)
    requires 0 <= w.start <= p < w.end && p < |s|
    ensures HoldsPosition(WindowChunk(name, s, topic, w, k), s, p)
  {
    var c := WindowChunk(name, s, topic, w, k);
    assert c.content == s[w.start..if w.end < |s| then w.end else |s|];
    assert c.content[p - w.start] == s[p];
  }

  function Names(chunks: seq<Chunk>): (r: seq<string>)
    ensures |r| == |chunks|
  {
    seq(|chunks|, k requires 0 <= k < |chunks| => chunks[k].fileName)
  }

  /** How many chunks carry the file name `name`. */
  function CountNamed(chunks: seq<Chunk>, name: string): nat {
    multiset(Names(chunks))[name]
  }

  lemma NamesAppend(a: seq<Chunk>, b: seq<Chunk>)
    ensures Names(a + b) == Names(a) + Names(b)
  {
  }

  /** The back-fill at the end of `chunk_documents`: every chunk named `name`, from this document or an
      earlier one, gets the count of such chunks as its total. */
  function BackFill(chunks: seq<Chunk>, name: string): (r: seq<Chunk>)
    ensures |r| == |chunks| && Names(r) == Names(chunks)
    ensures forall k :: 0 <= k < |r| ==>
      r[k] == if chunks[k].fileName == name then chunks[k].(total := CountNamed(chunks, name)) else chunks[k]
  {
    var n := CountNamed(chunks, name);
    seq(|chunks|, k requires 0 <= k < |chunks| =>
      if chunks[k].fileName == name then chunks[k].(total := n) else chunks[k])
  }

  /** One document of the outer loop, added to the chunks so far. An Err
      is the KeyError of a document without a file name, raised when its
      name is first read: at once for a short document, at the first
      window for a split one, and at the back-fill when there are chunks to
      compare it with. */
  function ChunkOne(doc: Document, size: int, overlap: int, acc: seq<Chunk>): (r: Result<seq<Chunk>, string>)
    ensures r.Err? ==> r.error == MissingFileName
    ensures var s := doc.content.GetOr("");
      r.Err? <==> doc.fileName.None? && (|s| < size || Windows(s, 0, size, overlap) != [] || acc != [])
    ensures r.Ok? ==> |r.value| >= |acc| && Names(r.value)[..|acc|] == Names(acc)
  {
    var s := doc.content.GetOr("");
    var topic := doc.topic.GetOr("");
    if |s| < size then
      if doc.fileName.None? then Err(MissingFileName)
      else
        var name := doc.fileName.value;
        Ok(acc + [Chunk(ChunkId(name, 0), name, s, topic, 0, 1, None)])
    else
      var ws := Windows(s, 0, size, overlap);
      if doc.fileName.None? then
        if ws != [] || acc != [] then Err(MissingFileName) else Ok(acc)
      else
        var name := doc.fileName.value;
        var all := acc + WindowChunks(name, s, topic, ws);
        NamesAppend(acc, WindowChunks(name, s, topic, ws));
        Ok(BackFill(all, name))
  }

  /** `chunk_documents` on a named document shorter than the chunk size adds
      exactly one chunk, with index 0, total 1, id `{file_name}_chunk_0`,
      the whole text and no span. */
  lemma ShortDocumentOneChunk(doc: Document, size: int, overlap: int, acc: seq<Chunk>)
    requires doc.fileName.Some? && |doc.content.GetOr("")| < size
    ensures var r := ChunkOne(doc, size, overlap, acc);
      && r.Ok? && |r.value| == |acc| + 1 && r.value[..|acc|] == acc
      && var c := r.value[|acc|];
         && c.index == 0 && c.total == 1 && c.span == None
         && c.chunkId == ChunkId(doc.fileName.value, 0)
         && c.content == doc.content.GetOr("")
  {
  }

  /** `chunk_documents` on a named document at least as long as the chunk size
      adds one chunk per window, numbered from 0, each holding its window's
      text; the back-fill then changes only totals. */
  lemma LongDocumentChunks(doc: Document, size: int, overlap: int, acc: seq<Chunk>, k: nat)
    requires doc.fileName.Some? && |doc.content.GetOr("")| >= size
    requires k < |Windows(doc.content.GetOr(""), 0, size, overlap)|
    ensures var r := ChunkOne(doc, size, overlap, acc);
      var s := doc.content.GetOr("");
      var w := Windows(s, 0, size, overlap)[k];
      && r.Ok? && |r.value| == |acc| + |Windows(s, 0, size, overlap)|
      && r.value[|acc| + k].index == k
      && r.value[|acc| + k].chunkId == ChunkId(doc.fileName.value, k)
      && r.value[|acc| + k].span == Some((w.start, w.end))
      && r.value[|acc| + k].content == PySlice(s, w.start, w.end)
      && r.value[|acc| + k].total == CountNamed(r.value, doc.fileName.value)
  {
    var s := doc.content.GetOr("");
    var name := doc.fileName.value;
    var ws := Windows(s, 0, size, overlap);
    var added := WindowChunks(name, s, doc.topic.GetOr(""), ws);
    var all := acc + added;
    assert all[|acc| + k] == added[k];
    assert ChunkOne(doc, size, overlap, acc).value == BackFill(all, name);
  }

  function ChunkFrom(docs: seq<Document>, size: int, overlap: int, acc: seq<Chunk>): (r: Result<seq<Chunk>, string>)
    ensures r.Err? ==> r.error == MissingFileName && exists i :: 0 <= i < |docs| && docs[i].fileName.None?
    decreases |docs|
  {
    if docs == [] then Ok(acc)
    else
      var next :- ChunkOne(docs[0], size, overlap, acc);
      var r := ChunkFrom(docs[1..], size, overlap, next);
      assert r.Err? ==> exists i :: 1 <= i < |docs| && docs[i].fileName.None? by {
        if r.Err? {
          var i :| 0 <= i < |docs[1..]| && docs[1..][i].fileName.None?;
          assert docs[i + 1] == docs[1..][i];
        }
      }
      r
  }

  /** `chunk_documents(documents, chunk_size, overlap)` with the overlap
      clamped so that each window starts after the previous one. Any
      exception turns the whole result into one error record. */
  function ChunkDocuments(docs: seq<Document>, size: int, overlap: int): (r: ChunkOutcome)
    ensures (forall i :: 0 <= i < |docs| ==> docs[i].fileName.Some?) ==> r.Chunked?
    ensures r.ChunkingFailed? ==> r.message == ChunkingFailure + MissingFileName
  {
    match ChunkFrom(docs, size, overlap, [])
    case Ok(chunks) => Chunked(chunks)
    case Err(e) => ChunkingFailed(ChunkingFailure + e)
  }

  /** A document without a file name fails the whole call when every
      document before it has one and its name is read: it is short, or it
      has a window. */
  lemma {:induction false} UnnamedFails(docs: seq<Document>, size: int, overlap: int, acc: seq<Chunk>, j: nat)
    requires j < |docs| && docs[j].fileName.None?
    requires var s := docs[j].content.GetOr("");
      |s| < size || Windows(s, 0, size, overlap) != []
    requires forall i :: 0 <= i < j ==> docs[i].fileName.Some?
    ensures ChunkFrom(docs, size, overlap, acc).Err?
    decreases j
  {
    if j > 0 {
      var next := ChunkOne(docs[0], size, overlap, acc);
      assert next.Ok?;
      UnnamedFails(docs[1..], size, overlap, next.value, j - 1);
    }
  }

  /** Every chunk's total is the number of chunks that share its file name. */
  ghost predicate Consistent(chunks: seq<Chunk>) {
    forall k :: 0 <= k < |chunks| ==> chunks[k].total == CountNamed(chunks, chunks[k].fileName)
  }

  ghost predicate NamesUnique(docs: seq<Document>) {
    && (forall i :: 0 <= i < |docs| ==> docs[i].fileName.Some?)
    && (forall i, j :: 0 <= i < j < |docs| ==> docs[i].fileName != docs[j].fileName)
  }

  /** Adding one named document whose name no earlier chunk carries keeps
      the totals right. */
  lemma ChunkOneConsistent(doc: Document, size: int, overlap: int, acc: seq<Chunk>)
    requires doc.fileName.Some? && doc.fileName.value !in Names(acc)
    requires Consistent(acc)
    ensures ChunkOne(doc, size, overlap, acc).Ok?
    ensures Consistent(ChunkOne(doc, size, overlap, acc).value)
    ensures forall x :: x in Names(ChunkOne(doc, size, overlap, acc).value) ==> x in Names(acc) || x == doc.fileName.value
  {
    var s := doc.content.GetOr("");
    var topic := doc.topic.GetOr("");
    var name := doc.fileName.value;
    var r := ChunkOne(doc, size, overlap, acc).value;
    assert forall k :: 0 <= k < |acc| ==> acc[k].fileName != name by {
      forall k | 0 <= k < |acc| ensures acc[k].fileName != name {
        assert Names(acc)[k] == acc[k].fileName;
      }
    }
    if |s| < size {
      var added := [Chunk(ChunkId(name, 0), name, s, topic, 0, 1, None)];
      assert r == acc + added;
      SingleAdded(acc, added[0]);
      ConsistentAfterAdd(acc, added, r, name);
    } else {
      var added := WindowChunks(name, s, topic, Windows(s, 0, size, overlap));
      assert r == BackFill(acc + added, name);
      BackFilledAdded(acc, added, name);
      ConsistentAfterAdd(acc, added, r, name);
    }
  }

  lemma SingleAdded(acc: seq<Chunk>, c: Chunk)
    requires c.fileName !in Names(acc) && c.total == 1
    ensures Names(acc + [c]) == Names(acc) + Names([c])
    ensures CountNamed(acc + [c], c.fileName) == 1
  {
    NamesAppend(acc, [c]);
    assert Names([c]) == [c.fileName];
  }

  lemma BackFilledAdded(acc: seq<Chunk>, added: seq<Chunk>, name: string)
    requires forall k :: 0 <= k < |acc| ==> acc[k].fileName != name
    requires forall k :: 0 <= k < |added| ==> added[k].fileName == name
    ensures var r := BackFill(acc + added, name);
      && Names(r) == Names(acc) + Names(added)
      && (forall k :: 0 <= k < |acc| ==> r[k] == acc[k])
      && (forall k :: |acc| <= k < |r| ==> r[k].total == CountNamed(r, name))
  {
    NamesAppend(acc, added);
    var r := BackFill(acc + added, name);
    forall k | 0 <= k < |acc| ensures r[k] == acc[k] {
      assert (acc + added)[k] == acc[k];
    }
    forall k | |acc| <= k < |r| ensures r[k].total == CountNamed(r, name) {
      assert (acc + added)[k] == added[k - |acc|];
    }
  }

  /** Chunks of a new name appended after consistent chunks, each carrying
      the count of its name, leave the chunks consistent. */
  lemma ConsistentAfterAdd(acc: seq<Chunk>, added: seq<Chunk>, r: seq<Chunk>, name: string)
    requires Consistent(acc) && name !in Names(acc)
    requires forall k :: 0 <= k < |added| ==> added[k].fileName == name
    requires |r| == |acc| + |added| && Names(r) == Names(acc) + Names(added)
    requires forall k :: 0 <= k < |acc| ==> r[k] == acc[k]
    requires forall k :: |acc| <= k < |r| ==> r[k].total == CountNamed(r, name)
    ensures Consistent(r)
    ensures forall x :: x in Names(r) ==> x in Names(acc) || x == name
  {
    assert forall k :: 0 <= k < |added| ==> Names(added)[k] == name;
    forall x | x != name ensures CountNamed(r, x) == CountNamed(acc, x) {
      assert x !in Names(added);
    }
    forall k | 0 <= k < |r| ensures r[k].total == CountNamed(r, r[k].fileName) {
      if k >= |acc| {
        assert Names(r)[k] == Names(added)[k - |acc|] == name;
      } else {
        assert Names(r)[k] == Names(acc)[k];
      }
    }
    forall x | x in Names(r) ensures x in Names(acc) || x == name {
      var k :| 0 <= k < |Names(r)| && Names(r)[k] == x;
      if k < |acc| { assert Names(r)[k] == Names(acc)[k]; }
    }
  }

  /** When every document has its own file name, every chunk's total is
      the number of chunks of its document. */
  lemma {:induction false} ChunkDocumentsConsistent(docs: seq<Document>, size: int, overlap: int, acc: seq<Chunk>)
    requires NamesUnique(docs) && Consistent(acc)
    requires forall i :: 0 <= i < |docs| ==> docs[i].fileName.value !in Names(acc)
    ensures ChunkFrom(docs, size, overlap, acc).Ok?
    ensures Consistent(ChunkFrom(docs, size, overlap, acc).value)
    decreases |docs|
  {
    if docs != [] {
      ChunkOneConsistent(docs[0], size, overlap, acc);
      var next := ChunkOne(docs[0], size, overlap, acc).value;
      forall i | 0 <= i < |docs[1..]| ensures docs[1..][i].fileName.value !in Names(next) {
        assert docs[1..][i] == docs[i + 1];
        assert docs[i + 1].fileName != docs[0].fileName;
      }
      ChunkDocumentsConsistent(docs[1..], size, overlap, next);
    }
  }
}
