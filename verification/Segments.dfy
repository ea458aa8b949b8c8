/** Splitting a document into overlapping segments. */
module Segments {
  import opened Text
  import opened Chunks
  import opened Budgets
  import opened Rendering

  /** One segment covers chunks lo up to, not including, hi. */
  datatype Cut = Cut(lo: nat, hi: nat)

  datatype Segment = Segment(text: string, chunkCount: nat, documentCount: nat, totalTokens: nat)

  const OPENING := "\n--- DOCUMENT SEGMENT ---\n\n"
  const CLOSING := "\n--- END SEGMENT ---\n"

  function SegmentOf(chunks: seq<RetrievedChunk>): Segment {
    Segment(OPENING + Rendered(chunks) + CLOSING, |chunks|, |DocumentsIn(chunks)|, TotalTokens(chunks))
  }

  /** Tokens of chunks a up to b. */
  function Span(chunks: seq<RetrievedChunk>, a: nat, b: nat): nat
    requires a <= b <= |chunks|
  {
    TotalTokens(chunks[a..b])
  }

  /** Where a segment starting at lo and holding chunks up to h at least must be cut. */
  function Extend(chunks: seq<RetrievedChunk>, size: int, lo: nat, h: nat): (hi: nat)
    requires lo < h <= |chunks|
    ensures h <= hi <= |chunks|
    decreases |chunks| - h
  {
    if h == |chunks| || Span(chunks, lo, h) + ChunkTokens(chunks[h]) > size then h
    else Extend(chunks, size, lo, h + 1)
  }

  /** Walking back from s until the suffix reaches the overlap or the segment is used up. */
  function OverlapStart(chunks: seq<RetrievedChunk>, overlap: int, lo: nat, s: nat, hi: nat): (start: nat)
    requires lo <= s <= hi <= |chunks|
    ensures lo <= start <= s
  {
    if s == lo || Span(chunks, s, hi) >= overlap then s else OverlapStart(chunks, overlap, lo, s - 1, hi)
  }

  /** The segments from lo on, when everything before prev has been covered. */
  function CutsFrom(chunks: seq<RetrievedChunk>, size: int, overlap: int, lo: nat, prev: nat): seq<Cut>
    requires lo <= prev <= |chunks|
    decreases |chunks| - prev
  {
    if prev == |chunks| then []
    else
      var hi := Extend(chunks, size, lo, prev + 1);
      [Cut(lo, hi)] + CutsFrom(chunks, size, overlap, OverlapStart(chunks, overlap, lo, hi, hi), hi)
  }

  function Cuts(chunks: seq<RetrievedChunk>, size: int, overlap: int): seq<Cut> {
    CutsFrom(chunks, size, overlap, 0, 0)
  }

  // ---- the loops ----

  lemma SpanAppend(chunks: seq<RetrievedChunk>, a: nat, b: nat)
    requires a <= b < |chunks|
    ensures chunks[a..b + 1] == chunks[a..b] + [chunks[b]]
    ensures Span(chunks, a, b + 1) == Span(chunks, a, b) + ChunkTokens(chunks[b])
  {
    assert chunks[a..b + 1][..b - a] == chunks[a..b];
  }

  lemma SpanPrepend(chunks: seq<RetrievedChunk>, a: nat, b: nat)
    requires a < b <= |chunks|
    ensures chunks[a..b] == [chunks[a]] + chunks[a + 1..b]
    ensures Span(chunks, a, b) == ChunkTokens(chunks[a]) + Span(chunks, a + 1, b)
  {
    TotalTail(chunks[a..b], ChunkTokens);
    assert chunks[a..b][1..] == chunks[a + 1..b];
  }

  method FormatSegment(chunks: seq<RetrievedChunk>, totalTokens: nat) returns (segment: Segment)
    requires totalTokens == TotalTokens(chunks)
    ensures segment == SegmentOf(chunks)
  {
    var text, current, documents := OPENING, "", {};
    ghost var written := [];
    assert OPENING + "" == OPENING;
    for i := 0 to |chunks|
      invariant written == chunks[..i]
      invariant Written(OPENING, written, text, current, documents)
    {
      text, current, documents := WriteNext(text, current, documents, chunks[i], OPENING, written);
      written := written + [chunks[i]];
    }
    assert written == chunks;
    segment := Segment(text + CLOSING, |chunks|, |documents|, totalTokens);
  }

  /** The shortest suffix of chunks lo..hi reaching the overlap, or all of them. */
  method GetOverlapChunks(current: seq<RetrievedChunk>, overlap: int,
                          ghost chunks: seq<RetrievedChunk>, ghost lo: nat, ghost hi: nat)
    returns (suffix: seq<RetrievedChunk>)
    requires lo <= hi <= |chunks| && current == chunks[lo..hi]
    ensures suffix == chunks[OverlapStart(chunks, overlap, lo, hi, hi)..hi]
  {
    suffix := [];
    if |current| == 0 || overlap <= 0 {
      return;
    }
    var tokens, i := 0, |current|;
    while i > 0 && tokens < overlap
      invariant 0 <= i <= |current|
      invariant suffix == chunks[lo + i..hi]
      invariant tokens == Span(chunks, lo + i, hi)
      invariant OverlapStart(chunks, overlap, lo, hi, hi) == OverlapStart(chunks, overlap, lo, lo + i, hi)
    {
      i := i - 1;
      SpanPrepend(chunks, lo + i, hi);
      suffix := [current[i]] + suffix;
      tokens := tokens + ChunkTokens(current[i]);
    }
  }

  /** After the chunks before i: the cuts made so far, the segment open from lo, covered up to prev. */
  ghost predicate Progress(chunks: seq<RetrievedChunk>, size: int, overlap: int, done: seq<Cut>,
                           lo: nat, prev: nat, i: nat) {
    && lo <= prev <= i <= |chunks|
    && Cuts(chunks, size, overlap) == done + CutsFrom(chunks, size, overlap, lo, prev)
    && (prev < i ==> Extend(chunks, size, lo, prev + 1) == Extend(chunks, size, lo, i))
  }

  lemma Grow(chunks: seq<RetrievedChunk>, size: int, overlap: int, done: seq<Cut>, lo: nat, prev: nat, i: nat)
    requires Progress(chunks, size, overlap, done, lo, prev, i) && i < |chunks|
    requires prev < i ==> Span(chunks, lo, i) + ChunkTokens(chunks[i]) <= size
    ensures Progress(chunks, size, overlap, done, lo, prev, i + 1)
  {
  }

  lemma CutHere(chunks: seq<RetrievedChunk>, size: int, overlap: int, done: seq<Cut>, lo: nat, prev: nat, i: nat)
    requires Progress(chunks, size, overlap, done, lo, prev, i) && prev < i
    requires i < |chunks| ==> Span(chunks, lo, i) + ChunkTokens(chunks[i]) > size
    ensures Progress(chunks, size, overlap, done + [Cut(lo, i)], OverlapStart(chunks, overlap, lo, i, i), i, i)
  {
    assert Extend(chunks, size, lo, i) == i;
    var rest := CutsFrom(chunks, size, overlap, OverlapStart(chunks, overlap, lo, i, i), i);
    assert done + ([Cut(lo, i)] + rest) == done + [Cut(lo, i)] + rest;
  }

  /** Formatting the open segment, chunks lo to i, as the next one. */
  method CloseSegment(segments: seq<Segment>, current: seq<RetrievedChunk>, tokens: nat,
                      ghost chunks: seq<RetrievedChunk>, ghost done: seq<Cut>, ghost lo: nat, ghost i: nat)
    returns (closed: seq<Segment>)
    requires Segmented(chunks, done, segments)
    requires lo <= i <= |chunks| && current == chunks[lo..i] && tokens == Span(chunks, lo, i)
    ensures Segmented(chunks, done + [Cut(lo, i)], closed)
  {
    var segment := FormatSegment(current, tokens);
    closed := segments + [segment];
  }

  /** The overlap that opens the next segment, with its tokens added up again. */
  method OpenWithOverlap(current: seq<RetrievedChunk>, overlap: int,
                         ghost chunks: seq<RetrievedChunk>, ghost lo: nat, ghost i: nat)
    returns (suffix: seq<RetrievedChunk>, tokens: nat)
    requires lo <= i <= |chunks| && current == chunks[lo..i]
    ensures Holds(chunks, OverlapStart(chunks, overlap, lo, i, i), i, suffix, tokens)
  {
    suffix := GetOverlapChunks(current, overlap, chunks, lo, i);
    tokens := SumTokens(suffix);
  }

  /** The open segment holds chunks lo to i, and tokens counts them. */
  ghost predicate Holds(chunks: seq<RetrievedChunk>, lo: nat, i: nat, current: seq<RetrievedChunk>, tokens: int) {
    lo <= i <= |chunks| && current == chunks[lo..i] && tokens == Span(chunks, lo, i)
  }

  /** Where the loop stands, in terms of the cuts it has made. */
  datatype Position = Position(done: seq<Cut>, lo: nat, prev: nat)

  /** The loop's invariant: progress, the open segment and the closed ones. */
  ghost predicate Standing(chunks: seq<RetrievedChunk>, size: int, overlap: int, at: Position, i: nat,
                           segments: seq<Segment>, current: seq<RetrievedChunk>, tokens: int) {
    && Progress(chunks, size, overlap, at.done, at.lo, at.prev, i)
    && Holds(chunks, at.lo, i, current, tokens)
    && Segmented(chunks, at.done, segments)
  }

  /** Closing the open segment before chunk i and carrying its overlap over. */
  method CutSegment(segments: seq<Segment>, current: seq<RetrievedChunk>, tokens: nat, overlap: int,
                    ghost chunks: seq<RetrievedChunk>, ghost size: int, ghost at: Position, ghost i: nat)
    returns (closed: seq<Segment>, carried: seq<RetrievedChunk>, carriedTokens: nat, ghost next: Position)
    requires Standing(chunks, size, overlap, at, i, segments, current, tokens)
    requires at.prev < i < |chunks| && tokens + ChunkTokens(chunks[i]) > size
    ensures Standing(chunks, size, overlap, next, i, closed, carried, carriedTokens)
    ensures next.prev == i
  {
    closed := CloseSegment(segments, current, tokens, chunks, at.done, at.lo, i);
    carried, carriedTokens := OpenWithOverlap(current, overlap, chunks, at.lo, i);
    CutHere(chunks, size, overlap, at.done, at.lo, at.prev, i);
    next := Position(at.done + [Cut(at.lo, i)], OverlapStart(chunks, overlap, at.lo, i, i), i);
  }

  lemma AddChunk(chunks: seq<RetrievedChunk>, size: int, overlap: int, at: Position, i: nat,
                 segments: seq<Segment>, current: seq<RetrievedChunk>, tokens: nat)
    requires Standing(chunks, size, overlap, at, i, segments, current, tokens) && i < |chunks|
    requires at.prev == i || tokens + ChunkTokens(chunks[i]) <= size
    ensures Standing(chunks, size, overlap, at, i + 1, segments, current + [chunks[i]], tokens + ChunkTokens(chunks[i]))
  {
    Grow(chunks, size, overlap, at.done, at.lo, at.prev, i);
    SpanAppend(chunks, at.lo, i);
  }

  /** One turn of the loop: cut first if chunk i does not fit, then add it. */
  method PlaceChunk(segments: seq<Segment>, current: seq<RetrievedChunk>, tokens: nat, size: int, overlap: int,
                    chunk: RetrievedChunk, ghost chunks: seq<RetrievedChunk>, ghost at: Position, ghost i: nat)
    returns (segments': seq<Segment>, current': seq<RetrievedChunk>, tokens': nat, ghost at': Position)
    requires Standing(chunks, size, overlap, at, i, segments, current, tokens)
    requires i < |chunks| && chunk == chunks[i] && (i == 0 || at.prev < i)
    ensures Standing(chunks, size, overlap, at', i + 1, segments', current', tokens')
    ensures at'.prev < i + 1
  {
    var chunkTokens := EstimateTokenCount(chunk.content);
    if tokens + chunkTokens > size && |current| > 0 {
      var closed, carried, carriedTokens;
      ghost var next;
      closed, carried, carriedTokens, next := CutSegment(segments, current, tokens, overlap, chunks, size, at, i);
      AddChunk(chunks, size, overlap, next, i, closed, carried, carriedTokens);
      return closed, carried + [chunk], carriedTokens + chunkTokens, next;
    }
    AddChunk(chunks, size, overlap, at, i, segments, current, tokens);
    return segments, current + [chunk], tokens + chunkTokens, at;
  }

  /** The loop over all chunks; the last segment is still open when it ends. */
  method FillSegments(chunks: seq<RetrievedChunk>, size: int, overlap: int)
    returns (segments: seq<Segment>, current: seq<RetrievedChunk>, tokens: nat, ghost at: Position)
    ensures Standing(chunks, size, overlap, at, |chunks|, segments, current, tokens)
    ensures chunks != [] ==> at.prev < |chunks|
  {
    segments, current, tokens, at := [], [], 0, Position([], 0, 0);
    for i := 0 to |chunks|
      invariant i == 0 || at.prev < i
      invariant Standing(chunks, size, overlap, at, i, segments, current, tokens)
    {
      segments, current, tokens, at := PlaceChunk(segments, current, tokens, size, overlap, chunks[i], chunks, at, i);
    }
  }

  /** The segments are those of the cuts, which the lemmas of SegmentGuarantees characterise. */
  method SegmentDocuments(chunks: seq<RetrievedChunk>, size: int, overlap: int) returns (segments: seq<Segment>)
    ensures Segmented(chunks, Cuts(chunks, size, overlap), segments)
  {
    var current, tokens;
    ghost var at;
    segments, current, tokens, at := FillSegments(chunks, size, overlap);
    if |current| > 0 {
      CutHere(chunks, size, overlap, at.done, at.lo, at.prev, |chunks|);
      segments := CloseSegment(segments, current, tokens, chunks, at.done, at.lo, |chunks|);
      assert Cuts(chunks, size, overlap) == at.done + [Cut(at.lo, |chunks|)];
    } else {
      assert Cuts(chunks, size, overlap) == at.done;
    }
  }

  ghost predicate Segmented(chunks: seq<RetrievedChunk>, cuts: seq<Cut>, segments: seq<Segment>) {
    && |segments| == |cuts|
    && forall i | 0 <= i < |cuts| ::
         cuts[i].lo <= cuts[i].hi <= |chunks| && segments[i] == SegmentOf(chunks[cuts[i].lo..cuts[i].hi])
  }
}
