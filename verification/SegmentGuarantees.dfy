/** What segmentation promises: coverage, minimal overlaps and the true size bound. */
module SegmentGuarantees {
  import opened Text
  import opened Chunks
  import opened Budgets
  import opened Segments

  // ---- shape ----

  /** The cuts of chunks from prev on, the first one opening at lo. */
  ghost predicate Chained(chunks: seq<RetrievedChunk>, overlap: int, cuts: seq<Cut>, lo: nat, prev: nat) {
    && lo <= prev <= |chunks|
    && (cuts == [] <==> prev == |chunks|)
    && (cuts != [] ==>
          && cuts[0].lo == lo
          && prev < cuts[0].hi <= |chunks|
          && cuts[|cuts| - 1].hi == |chunks|)
    && (forall i | 0 <= i < |cuts| :: cuts[i].lo < cuts[i].hi <= |chunks|)
    && (forall i | 0 <= i < |cuts| - 1 ::
          && cuts[i].hi < cuts[i + 1].hi
          && cuts[i + 1].lo == OverlapStart(chunks, overlap, cuts[i].lo, cuts[i].hi, cuts[i].hi))
  }

  lemma {:induction false} CutsAreChained(chunks: seq<RetrievedChunk>, size: int, overlap: int, lo: nat, prev: nat)
    requires lo <= prev <= |chunks|
    ensures Chained(chunks, overlap, CutsFrom(chunks, size, overlap, lo, prev), lo, prev)
    decreases |chunks| - prev
  {
    if prev < |chunks| {
      var hi := Extend(chunks, size, lo, prev + 1);
      var start := OverlapStart(chunks, overlap, lo, hi, hi);
      var rest := CutsFrom(chunks, size, overlap, start, hi);
      CutsAreChained(chunks, size, overlap, start, hi);
      var cuts := [Cut(lo, hi)] + rest;
      forall i | 0 <= i < |cuts| - 1
        ensures cuts[i].hi < cuts[i + 1].hi
        ensures cuts[i + 1].lo == OverlapStart(chunks, overlap, cuts[i].lo, cuts[i].hi, cuts[i].hi)
      {
        if i > 0 {
          assert cuts[i] == rest[i - 1] && cuts[i + 1] == rest[i];
        }
      }
    }
  }

  // ---- greed ----

  lemma {:induction false} ExtendIsGreedy(chunks: seq<RetrievedChunk>, size: int, lo: nat, h: nat)
    requires lo < h <= |chunks|
    ensures var hi := Extend(chunks, size, lo, h);
            && (hi < |chunks| ==> Span(chunks, lo, hi) + ChunkTokens(chunks[hi]) > size)
            && (hi == h || Span(chunks, lo, hi) <= size)
    decreases |chunks| - h
  {
    if Extend(chunks, size, lo, h) != h {
      SpanAppend(chunks, lo, h);
      ExtendIsGreedy(chunks, size, lo, h + 1);
    }
  }

  /** A cut that is made because the next chunk does not fit, never earlier; and a cut that exceeds the
      size only when it adds a single chunk to what was covered before it. */
  ghost predicate GreedyCut(chunks: seq<RetrievedChunk>, size: int, cut: Cut, prev: nat) {
    && cut.lo < cut.hi <= |chunks|
    && (cut.hi < |chunks| ==> Span(chunks, cut.lo, cut.hi) + ChunkTokens(chunks[cut.hi]) > size)
    && (cut.hi == prev + 1 || Span(chunks, cut.lo, cut.hi) <= size)
  }

  function CoveredBefore(cuts: seq<Cut>, i: nat, prev: nat): nat
    requires i <= |cuts|
  {
    if i == 0 then prev else cuts[i - 1].hi
  }

  lemma {:induction false} CutsAreGreedy(chunks: seq<RetrievedChunk>, size: int, overlap: int,
                                         lo: nat, prev: nat, i: nat)
    requires lo <= prev <= |chunks|
    requires i < |CutsFrom(chunks, size, overlap, lo, prev)|
    ensures var cuts := CutsFrom(chunks, size, overlap, lo, prev);
            GreedyCut(chunks, size, cuts[i], CoveredBefore(cuts, i, prev))
    decreases |chunks| - prev
  {
    var hi := Extend(chunks, size, lo, prev + 1);
    if i == 0 {
      ExtendIsGreedy(chunks, size, lo, prev + 1);
    } else {
      CutsAreGreedy(chunks, size, overlap, OverlapStart(chunks, overlap, lo, hi, hi), hi, i - 1);
    }
  }

  /** Every segment is as long as it can be: it ends where the next chunk does not fit, or with the last
      chunk, and exceeds the size only when all it adds to its overlap is one chunk. */
  lemma SegmentsAreMaximal(chunks: seq<RetrievedChunk>, size: int, overlap: int, i: nat)
    requires i < |Cuts(chunks, size, overlap)|
    ensures var cuts := Cuts(chunks, size, overlap);
            GreedyCut(chunks, size, cuts[i], CoveredBefore(cuts, i, 0))
  {
    CutsAreGreedy(chunks, size, overlap, 0, 0, i);
  }

  // ---- overlaps ----

  /** The chunks from start are the shortest suffix of lo..hi reaching the overlap, or all of it. */
  ghost predicate ShortestSuffix(chunks: seq<RetrievedChunk>, overlap: int, lo: nat, start: nat, hi: nat)
    requires lo <= start <= hi <= |chunks|
  {
    && (start == lo || Span(chunks, start, hi) >= overlap)
    && (forall t | start < t <= hi :: Span(chunks, t, hi) < overlap)
  }

  lemma {:induction false} OverlapIsShortest(chunks: seq<RetrievedChunk>, overlap: int, lo: nat, s: nat, hi: nat)
    requires lo <= s <= hi <= |chunks|
    requires forall t | s < t <= hi :: Span(chunks, t, hi) < overlap
    ensures ShortestSuffix(chunks, overlap, lo, OverlapStart(chunks, overlap, lo, s, hi), hi)
    decreases s
  {
    if s > lo && Span(chunks, s, hi) < overlap {
      OverlapIsShortest(chunks, overlap, lo, s - 1, hi);
    }
  }

  // ---- reconstruction ----

  /** The segments' chunks with each overlap, what earlier segments covered, dropped. */
  function WithoutOverlaps(chunks: seq<RetrievedChunk>, cuts: seq<Cut>, prev: nat): seq<RetrievedChunk>
    requires cuts != [] ==> cuts[0].lo <= prev < cuts[0].hi <= |chunks|
    requires forall i | 0 < i < |cuts| :: cuts[i].lo <= cuts[i - 1].hi < cuts[i].hi <= |chunks|
  {
    if cuts == [] then []
    else
      var segment := chunks[cuts[0].lo..cuts[0].hi];
      segment[prev - cuts[0].lo..] + WithoutOverlaps(chunks, cuts[1..], cuts[0].hi)
  }

  lemma {:induction false} Reassemble(chunks: seq<RetrievedChunk>, cuts: seq<Cut>, prev: nat)
    requires cuts != [] && cuts[0].lo <= prev < cuts[0].hi <= |chunks|
    requires forall i | 0 < i < |cuts| :: cuts[i].lo <= cuts[i - 1].hi < cuts[i].hi <= |chunks|
    ensures prev <= cuts[|cuts| - 1].hi <= |chunks|
    ensures WithoutOverlaps(chunks, cuts, prev) == chunks[prev..cuts[|cuts| - 1].hi]
    decreases |cuts|
  {
    var rest := cuts[1..];
    if |cuts| > 1 {
      assert rest[0] == cuts[1];
      Reassemble(chunks, rest, cuts[0].hi);
      assert rest[|rest| - 1] == cuts[|cuts| - 1];
      assert chunks[prev..cuts[0].hi] + chunks[cuts[0].hi..cuts[|cuts| - 1].hi] == chunks[prev..cuts[|cuts| - 1].hi];
    }
  }

  /** Consecutive segments: ends strictly increase and the later one opens with the shortest suffix
      of the earlier one that reaches the overlap size, or with all of it. */
  lemma NeighboursOverlap(chunks: seq<RetrievedChunk>, size: int, overlap: int, i: nat)
    requires 0 < i < |Cuts(chunks, size, overlap)|
    ensures var before, cut := Cuts(chunks, size, overlap)[i - 1], Cuts(chunks, size, overlap)[i];
            && before.lo <= cut.lo <= before.hi < cut.hi <= |chunks|
            && ShortestSuffix(chunks, overlap, before.lo, cut.lo, before.hi)
  {
    var cuts := Cuts(chunks, size, overlap);
    CutsAreChained(chunks, size, overlap, 0, 0);
    assert cuts[i - 1].hi < cuts[(i - 1) + 1].hi;
    OverlapIsShortest(chunks, overlap, cuts[i - 1].lo, cuts[i - 1].hi, cuts[i - 1].hi);
  }

  /** The shape every prefix of the cuts has, as reassembly needs it. */
  ghost predicate Stacked(chunks: seq<RetrievedChunk>, cuts: seq<Cut>) {
    && (cuts != [] ==> cuts[0].lo == 0 < cuts[0].hi <= |chunks|)
    && forall i | 0 < i < |cuts| :: cuts[i].lo <= cuts[i - 1].hi < cuts[i].hi <= |chunks|
  }

  lemma CutsAreStacked(chunks: seq<RetrievedChunk>, size: int, overlap: int, n: nat)
    requires n <= |Cuts(chunks, size, overlap)|
    ensures Stacked(chunks, Cuts(chunks, size, overlap)[..n])
  {
    var cuts := Cuts(chunks, size, overlap);
    CutsAreChained(chunks, size, overlap, 0, 0);
    forall i | 0 < i < |cuts| ensures cuts[i].lo <= cuts[i - 1].hi < cuts[i].hi <= |chunks| {
      NeighboursOverlap(chunks, size, overlap, i);
    }
  }

  /** What the first n segments cover, each overlap dropped. */
  function Covered(chunks: seq<RetrievedChunk>, size: int, overlap: int, n: nat): seq<RetrievedChunk>
    requires n <= |Cuts(chunks, size, overlap)|
  {
    CutsAreStacked(chunks, size, overlap, n);
    WithoutOverlaps(chunks, Cuts(chunks, size, overlap)[..n], 0)
  }

  /** Reconstruction: the first n segments, overlaps dropped, give back exactly the input up to where
      the last of them ends. */
  lemma SegmentsReconstruct(chunks: seq<RetrievedChunk>, size: int, overlap: int, n: nat)
    requires n <= |Cuts(chunks, size, overlap)|
    ensures n > 0 ==> Cuts(chunks, size, overlap)[n - 1].hi <= |chunks|
    ensures Covered(chunks, size, overlap, n) == chunks[..if n == 0 then 0 else Cuts(chunks, size, overlap)[n - 1].hi]
  {
    CutsAreStacked(chunks, size, overlap, n);
    if n > 0 {
      Reassemble(chunks, Cuts(chunks, size, overlap)[..n], 0);
    }
  }

  /** All segments together give back the whole input. */
  lemma AllSegmentsReconstruct(chunks: seq<RetrievedChunk>, size: int, overlap: int)
    ensures Covered(chunks, size, overlap, |Cuts(chunks, size, overlap)|) == chunks
    ensures chunks != [] ==> Cuts(chunks, size, overlap) != []
  {
    CutsAreChained(chunks, size, overlap, 0, 0);
    SegmentsReconstruct(chunks, size, overlap, |Cuts(chunks, size, overlap)|);
  }

  // ---- size ----

  ghost predicate ChunksAtMost(chunks: seq<RetrievedChunk>, largest: nat) {
    forall c | c in chunks :: ChunkTokens(c) <= largest
  }

  ghost predicate SegmentsAtMost(chunks: seq<RetrievedChunk>, cuts: seq<Cut>, bound: int) {
    forall i | 0 <= i < |cuts| ::
      cuts[i].lo <= cuts[i].hi <= |chunks| && Span(chunks, cuts[i].lo, cuts[i].hi) <= bound
  }

  function Max(a: int, b: int): int { if a >= b then a else b }

  /** No overlap is larger than overlap - 1 plus one chunk; without overlap it is empty. */
  function OverlapBound(overlap: int, largest: nat): int {
    if overlap >= 1 then overlap - 1 + largest else 0
  }

  lemma {:induction false} ExtendBound(chunks: seq<RetrievedChunk>, size: int, lo: nat, h: nat, bound: int)
    requires lo < h <= |chunks|
    requires size <= bound && Span(chunks, lo, h) <= bound
    ensures Span(chunks, lo, Extend(chunks, size, lo, h)) <= bound
    decreases |chunks| - h
  {
    if Extend(chunks, size, lo, h) != h {
      SpanAppend(chunks, lo, h);
      ExtendBound(chunks, size, lo, h + 1, bound);
    }
  }

  lemma OverlapIsBounded(chunks: seq<RetrievedChunk>, overlap: int, lo: nat, hi: nat, largest: nat)
    requires lo < hi <= |chunks| && ChunksAtMost(chunks, largest)
    ensures var start := OverlapStart(chunks, overlap, lo, hi, hi);
            Span(chunks, start, hi) <= OverlapBound(overlap, largest)
  {
    var start := OverlapStart(chunks, overlap, lo, hi, hi);
    OverlapIsShortest(chunks, overlap, lo, hi, hi);
    if start < hi {
      SpanPrepend(chunks, start, hi);
      assert chunks[start] in chunks;
      assert Span(chunks, start + 1, hi) < overlap;
    }
  }

  /** The segment opened with an overlap within its bound stays within its own. */
  lemma CutBound(chunks: seq<RetrievedChunk>, size: int, overlap: int, lo: nat, prev: nat, largest: nat)
    requires lo <= prev < |chunks| && ChunksAtMost(chunks, largest)
    requires Span(chunks, lo, prev) <= OverlapBound(overlap, largest)
    ensures Span(chunks, lo, Extend(chunks, size, lo, prev + 1)) <= Max(size, OverlapBound(overlap, largest) + largest)
  {
    SpanAppend(chunks, lo, prev);
    assert chunks[prev] in chunks;
    ExtendBound(chunks, size, lo, prev + 1, Max(size, OverlapBound(overlap, largest) + largest));
  }

  lemma {:induction false} CutsBound(chunks: seq<RetrievedChunk>, size: int, overlap: int,
                                     lo: nat, prev: nat, largest: nat)
    requires lo <= prev <= |chunks| && ChunksAtMost(chunks, largest)
    requires Span(chunks, lo, prev) <= OverlapBound(overlap, largest)
    ensures SegmentsAtMost(chunks, CutsFrom(chunks, size, overlap, lo, prev),
                           Max(size, OverlapBound(overlap, largest) + largest))
    decreases |chunks| - prev
  {
    if prev < |chunks| {
      var hi := Extend(chunks, size, lo, prev + 1);
      CutBound(chunks, size, overlap, lo, prev, largest);
      OverlapIsBounded(chunks, overlap, lo, hi, largest);
      CutsBound(chunks, size, overlap, OverlapStart(chunks, overlap, lo, hi, hi), hi, largest);
    }
  }

  /** The true size bound: a segment may exceed the segment size, but never the larger of that size
      and one overlap plus one chunk. */
  lemma SegmentSizeBound(chunks: seq<RetrievedChunk>, size: int, overlap: int, largest: nat)
    requires ChunksAtMost(chunks, largest)
    ensures overlap >= 1 ==> SegmentsAtMost(chunks, Cuts(chunks, size, overlap), Max(size, overlap - 1 + 2 * largest))
    ensures overlap <= 0 ==> SegmentsAtMost(chunks, Cuts(chunks, size, overlap), Max(size, largest))
  {
    assert Span(chunks, 0, 0) == 0;
    CutsBound(chunks, size, overlap, 0, 0, largest);
  }

  // ---- exactly when every segment fits ----

  /** A chunk of the given number of tokens. */
  function Sized(tokens: nat): RetrievedChunk {
    RetrievedChunk("id", "", "", seq(4 * tokens, _ => 'a'), 0, 0, 0.0, "", map[])
  }

  lemma SizedTokens(tokens: nat)
    ensures ChunkTokens(Sized(tokens)) == tokens
  {
    AsciiBytes(Sized(tokens).content);
  }

  /** The worst case: a largest chunk, then overlap - 1 chunks of one token, then a largest chunk. */
  function Worst(overlap: int, largest: nat): seq<RetrievedChunk>
    requires overlap >= 1
  {
    [Sized(largest)] + seq(overlap - 1, _ => Sized(1)) + [Sized(largest)]
  }

  lemma {:induction false} OnesSpan(n: nat)
    ensures TotalTokens(seq(n, _ => Sized(1))) == n
  {
    if n > 0 {
      var ones := seq(n, _ => Sized(1));
      assert ones[..n - 1] == seq(n - 1, _ => Sized(1));
      OnesSpan(n - 1);
      SizedTokens(1);
    }
  }

  lemma WorstSpans(overlap: int, largest: nat, h: nat)
    requires overlap >= 1 && 1 <= h <= overlap + 1
    ensures |Worst(overlap, largest)| == overlap + 1
    ensures h <= overlap ==> Span(Worst(overlap, largest), 0, h) == largest + h - 1
    ensures Span(Worst(overlap, largest), 0, overlap + 1) == overlap - 1 + 2 * largest
    ensures forall t | 1 <= t <= h <= overlap :: Span(Worst(overlap, largest), t, h) == h - t
  {
    var w := Worst(overlap, largest);
    SizedTokens(largest);
    if h <= overlap {
      forall t: nat | 1 <= t <= h ensures Span(w, t, h) == h - t {
        assert w[t..h] == seq(h - t, _ => Sized(1));
        OnesSpan(h - t);
      }
      SpanPrepend(w, 0, h);
    }
    assert w[1..overlap] == seq(overlap - 1, _ => Sized(1));
    OnesSpan(overlap - 1);
    SpanPrepend(w, 0, overlap);
    SpanAppend(w, 0, overlap);
  }

  lemma {:induction false} WorstCut(overlap: int, largest: nat, size: int, h: nat)
    requires overlap >= 1 && largest >= 1 && 1 <= h <= overlap
    requires overlap - 1 + 2 * largest > size
    ensures var hi := Extend(Worst(overlap, largest), size, 0, h);
            hi <= overlap && Span(Worst(overlap, largest), 0, hi + 1) > size
    decreases overlap - h
  {
    var w := Worst(overlap, largest);
    WorstSpans(overlap, largest, h);
    SpanAppend(w, 0, h);
    if h < overlap && Span(w, 0, h + 1) <= size {
      WorstCut(overlap, largest, size, h + 1);
    }
  }

  /** In the worst case the first segment is carried whole into the second, which does not fit. */
  lemma WorstOverflows(overlap: int, largest: nat, size: int)
    requires overlap >= 1 && largest >= 1 && overlap - 1 + 2 * largest > size
    ensures ChunksAtMost(Worst(overlap, largest), largest)
    ensures !SegmentsAtMost(Worst(overlap, largest), Cuts(Worst(overlap, largest), size, overlap), size)
  {
    var w := Worst(overlap, largest);
    SizedTokens(largest);
    SizedTokens(1);
    WorstSpans(overlap, largest, 1);
    WorstCut(overlap, largest, size, 1);
    var hi := Extend(w, size, 0, 1);
    WorstSpans(overlap, largest, hi);
    var start := OverlapStart(w, overlap, 0, hi, hi);
    OverlapIsShortest(w, overlap, 0, hi, hi);
    assert start == 0;
    var cuts := Cuts(w, size, overlap);
    assert cuts == [Cut(0, hi)] + CutsFrom(w, size, overlap, 0, hi);
    var second := Cut(0, Extend(w, size, 0, hi + 1));
    assert cuts[1] == second;
    TotalPrefix(w, hi + 1, second.hi, ChunkTokens);
    assert w[0..hi + 1] == w[..hi + 1] && w[0..second.hi] == w[..second.hi];
    assert Span(w, cuts[1].lo, cuts[1].hi) > size;
  }

  /** A single chunk larger than the size is a segment of its own. */
  lemma SingleOverflows(overlap: int, largest: nat, size: int)
    requires largest > size
    ensures ChunksAtMost([Sized(largest)], largest)
    ensures !SegmentsAtMost([Sized(largest)], Cuts([Sized(largest)], size, overlap), size)
  {
    var one := [Sized(largest)];
    SizedTokens(largest);
    var cuts := Cuts(one, size, overlap);
    assert cuts == [Cut(0, 1)] + CutsFrom(one, size, overlap, OverlapStart(one, overlap, 0, 1, 1), 1);
    assert cuts[0] == Cut(0, 1);
    assert one[..0] == [];
    SpanAppend(one, 0, 0);
    assert Span(one, 0, 1) == largest;
  }

  lemma {:induction false} WeightlessTotal(chunks: seq<RetrievedChunk>)
    requires ChunksAtMost(chunks, 0)
    ensures TotalTokens(chunks) == 0
  {
    if chunks != [] {
      assert forall c | c in chunks[..|chunks| - 1] :: c in chunks;
      WeightlessTotal(chunks[..|chunks| - 1]);
      assert chunks[|chunks| - 1] in chunks;
    }
  }

  /** Chunks without tokens fit any size that is not negative. */
  lemma WeightlessSegments(chunks: seq<RetrievedChunk>, size: int, overlap: int)
    requires ChunksAtMost(chunks, 0) && size >= 0
    ensures SegmentsAtMost(chunks, Cuts(chunks, size, overlap), size)
  {
    CutsAreChained(chunks, size, overlap, 0, 0);
    var cuts := Cuts(chunks, size, overlap);
    forall i | 0 <= i < |cuts|
      ensures cuts[i].lo <= cuts[i].hi <= |chunks| && Span(chunks, cuts[i].lo, cuts[i].hi) <= size
    {
      WeightlessTotal(chunks[cuts[i].lo..cuts[i].hi]);
    }
  }

  /** The size leaves room for an overlap and two of the largest chunks; without an overlap, or when no
      chunk has any tokens, for one. */
  predicate Generous(size: int, overlap: int, largest: nat) {
    if overlap >= 1 && largest >= 1 then overlap + 2 * largest <= size + 1 else largest <= size
  }

  lemma GenerousSuffices(chunks: seq<RetrievedChunk>, size: int, overlap: int, largest: nat)
    requires Generous(size, overlap, largest) && ChunksAtMost(chunks, largest)
    ensures SegmentsAtMost(chunks, Cuts(chunks, size, overlap), size)
  {
    if largest == 0 {
      WeightlessSegments(chunks, size, overlap);
    } else {
      SegmentSizeBound(chunks, size, overlap, largest);
    }
  }

  /** "Every segment fits the segment size" is false in general. It holds for all chunk lists with
      chunks of at most `largest` tokens exactly when the size is generous. */
  lemma SegmentsFitExactly(size: int, overlap: int, largest: nat)
    ensures (forall chunks | ChunksAtMost(chunks, largest) :: SegmentsAtMost(chunks, Cuts(chunks, size, overlap), size))
       <==> Generous(size, overlap, largest)
  {
    if Generous(size, overlap, largest) {
      forall chunks | ChunksAtMost(chunks, largest)
        ensures SegmentsAtMost(chunks, Cuts(chunks, size, overlap), size)
      {
        GenerousSuffices(chunks, size, overlap, largest);
      }
    } else if overlap >= 1 && largest >= 1 {
      WorstOverflows(overlap, largest, size);
    } else {
      SingleOverflows(overlap, largest, size);
    }
  }
}
