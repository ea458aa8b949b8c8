/** Multi-pass execution: one model call a segment, on at most maxPasses segments. */
module MultiPass {
  import opened Wrappers
  import opened Chunks
  import opened Budgets
  import opened Segments
  import opened SegmentGuarantees

  datatype MultiPassConfig = MultiPassConfig(enabled: bool, segmentSize: int, overlapTokens: int, maxPasses: int)

  datatype Reply = Reply(content: string, tokens: nat)

  datatype SegmentResult = SegmentResult(segmentNumber: nat, content: string, partialResult: string, tokensUsed: nat)

  datatype Outcome =
    | Disabled
    | NoSegments
    | SegmentFailed(segmentNumber: nat)
    | AggregationFailed
    | Done(results: seq<SegmentResult>, aggregated: string, totalTokens: nat)

  function TokensUsed(r: SegmentResult): nat { r.tokensUsed }

  /** How many segments are processed. */
  function Passes(chunks: seq<RetrievedChunk>, cfg: MultiPassConfig): nat
    requires cfg.maxPasses >= 1
  {
    var made := |Cuts(chunks, cfg.segmentSize, cfg.overlapTokens)|;
    if made > cfg.maxPasses then cfg.maxPasses else made
  }

  /** The model: a reply, or an error, for segment k of n with this text. */
  type Model = (nat, nat, string) -> Option<Reply>

  /** The text of segment i, as the model sees it. */
  function SegmentText(chunks: seq<RetrievedChunk>, cfg: MultiPassConfig, i: nat): string
    requires i < |Cuts(chunks, cfg.segmentSize, cfg.overlapTokens)|
  {
    CutsAreChained(chunks, cfg.segmentSize, cfg.overlapTokens, 0, 0);
    var cut := Cuts(chunks, cfg.segmentSize, cfg.overlapTokens)[i];
    SegmentOf(chunks[cut.lo..cut.hi]).text
  }

  /** The texts of the segments to process. */
  ghost function Texts(chunks: seq<RetrievedChunk>, cfg: MultiPassConfig): seq<string>
    requires cfg.maxPasses >= 1
  {
    seq(Passes(chunks, cfg), i requires 0 <= i < Passes(chunks, cfg) => SegmentText(chunks, cfg, i))
  }

  function ReplyTo(texts: seq<string>, model: Model, i: nat): Option<Reply>
    requires i < |texts|
  {
    model(i + 1, |texts|, texts[i])
  }

  /** Results for the first segments, in order, each the model's reply to its own segment. */
  ghost predicate Answered(texts: seq<string>, model: Model, results: seq<SegmentResult>) {
    && |results| <= |texts|
    && forall i | 0 <= i < |results| ::
         var reply := ReplyTo(texts, model, i);
         reply.Some? && results[i] == SegmentResult(i + 1, texts[i], reply.value.content, reply.value.tokens)
  }

  /** The model answered the segments before k and refused segment k. */
  ghost predicate RefusedAt(texts: seq<string>, model: Model, k: nat) {
    && k < |texts|
    && ReplyTo(texts, model, k) == None
    && forall i | 0 <= i < k :: ReplyTo(texts, model, i).Some?
  }

  /** A result counts with the tokens its reply used. */
  lemma TokensAddUp(results: seq<SegmentResult>, r: SegmentResult)
    ensures Total([], TokensUsed) == 0 && Total(results + [r], TokensUsed) == Total(results, TokensUsed) + r.tokensUsed
  {
    TotalAppend(results, r, TokensUsed);
  }

  method RunPasses(segments: seq<Segment>, ghost texts: seq<string>, model: Model)
    returns (results: seq<SegmentResult>, totalTokens: nat)
    requires |segments| == |texts|
    requires forall i | 0 <= i < |segments| :: segments[i].text == texts[i]
    ensures Answered(texts, model, results)
    ensures totalTokens == Total(results, TokensUsed)
    ensures |results| < |segments| ==> RefusedAt(texts, model, |results|)
  {
    results, totalTokens := [], 0;
    for i := 0 to |segments|
      invariant |results| == i && Answered(texts, model, results)
      invariant totalTokens == Total(results, TokensUsed)
    {
      var reply := model(i + 1, |segments|, segments[i].text);
      assert reply == ReplyTo(texts, model, i);
      if reply == None {
        return;
      }
      var result := SegmentResult(i + 1, segments[i].text, reply.value.content, reply.value.tokens);
      assert (results + [result])[..i] == results;
      results := results + [result];
      totalTokens := totalTokens + reply.value.tokens;
    }
  }

  /** Splitting and cutting to the pass limit. */
  method LimitedSegments(chunks: seq<RetrievedChunk>, cfg: MultiPassConfig) returns (segments: seq<Segment>)
    requires cfg.maxPasses >= 1
    ensures |segments| == |Texts(chunks, cfg)|
    ensures var made := |Cuts(chunks, cfg.segmentSize, cfg.overlapTokens)|;
            if made > cfg.maxPasses then |segments| == cfg.maxPasses else |segments| == made
    ensures forall i | 0 <= i < |segments| :: segments[i].text == Texts(chunks, cfg)[i]
    ensures |segments| == 0 <==> chunks == []
  {
    segments := SegmentDocuments(chunks, cfg.segmentSize, cfg.overlapTokens);
    if |segments| > cfg.maxPasses {
      segments := segments[..cfg.maxPasses];
    }
    CutsAreChained(chunks, cfg.segmentSize, cfg.overlapTokens, 0, 0);
  }

  /** Results for exactly the first maxPasses segments, or for all when there are no more: each the model's
      reply to its own slice of the document, and together, overlaps dropped, for the document up to where
      the last of them ends. */
  ghost predicate Processed(chunks: seq<RetrievedChunk>, cfg: MultiPassConfig, model: Model,
                            results: seq<SegmentResult>) {
    var cuts := Cuts(chunks, cfg.segmentSize, cfg.overlapTokens);
    && (if |cuts| > cfg.maxPasses then |results| == cfg.maxPasses else |results| == |cuts|)
    && |results| > 0
    && (forall i | 0 <= i < |results| ::
          && cuts[i].lo <= cuts[i].hi <= |chunks|
          && results[i].content == SegmentOf(chunks[cuts[i].lo..cuts[i].hi]).text
          && results[i].segmentNumber == i + 1
          && model(i + 1, |results|, results[i].content)
             == Some(Reply(results[i].partialResult, results[i].tokensUsed)))
    && Covered(chunks, cfg.segmentSize, cfg.overlapTokens, |results|) == chunks[..cuts[|results| - 1].hi]
  }

  lemma AnsweredIsProcessed(chunks: seq<RetrievedChunk>, cfg: MultiPassConfig, model: Model,
                            results: seq<SegmentResult>)
    requires cfg.maxPasses >= 1
    requires Answered(Texts(chunks, cfg), model, results) && |results| == |Texts(chunks, cfg)| > 0
    ensures Processed(chunks, cfg, model, results)
  {
    CutsAreChained(chunks, cfg.segmentSize, cfg.overlapTokens, 0, 0);
    SegmentsReconstruct(chunks, cfg.segmentSize, cfg.overlapTokens, |results|);
    forall i | 0 <= i < |results|
      ensures results[i].content == SegmentText(chunks, cfg, i)
      ensures results[i].segmentNumber == i + 1
      ensures model(i + 1, |results|, results[i].content)
           == Some(Reply(results[i].partialResult, results[i].tokensUsed))
    {
      assert ReplyTo(Texts(chunks, cfg), model, i).Some?;
      assert results[i].content == Texts(chunks, cfg)[i];
    }
  }

  /** A completed run has one result for each processed segment. A failed run names the first segment the
      model refused. The reported tokens leave out the aggregation call. */
  method ExecuteMultiPass(chunks: seq<RetrievedChunk>, cfg: MultiPassConfig, model: Model,
                          aggregate: seq<SegmentResult> -> Option<string>) returns (r: Outcome)
    requires cfg.maxPasses >= 1
    ensures r.Disabled? <==> !cfg.enabled
    ensures r.NoSegments? <==> cfg.enabled && chunks == []
    ensures r.Done? ==> Processed(chunks, cfg, model, r.results)
    ensures r.Done? ==>
              && Answered(Texts(chunks, cfg), model, r.results)
              && |r.results| == |Texts(chunks, cfg)| > 0
              && r.totalTokens == Total(r.results, TokensUsed)
              && (if |r.results| == 1 then r.aggregated == r.results[0].partialResult
                  else aggregate(r.results) == Some(r.aggregated))
    ensures r.SegmentFailed? ==> r.segmentNumber > 0 && RefusedAt(Texts(chunks, cfg), model, r.segmentNumber - 1)
    ensures r.AggregationFailed? ==>
              exists results :: Answered(Texts(chunks, cfg), model, results) && Processed(chunks, cfg, model, results)
                && 1 < |results| == |Texts(chunks, cfg)| && aggregate(results) == None
  {
    if !cfg.enabled {
      return Disabled;
    }
    var segments := LimitedSegments(chunks, cfg);
    if |segments| == 0 {
      return NoSegments;
    }
    var results, totalTokens := RunPasses(segments, Texts(chunks, cfg), model);
    if |results| < |segments| {
      return SegmentFailed(|results| + 1);
    }
    AnsweredIsProcessed(chunks, cfg, model, results);
    if |results| > 1 {
      var aggregated := aggregate(results);
      if aggregated == None {
        return AggregationFailed;
      }
      return Done(results, aggregated.value, totalTokens);
    }
    return Done(results, results[0].partialResult, totalTokens);
  }

  /** What the processed segments cover. */
  lemma PassesCoverAPrefix(chunks: seq<RetrievedChunk>, cfg: MultiPassConfig)
    requires cfg.maxPasses >= 1
    ensures Covered(chunks, cfg.segmentSize, cfg.overlapTokens, Passes(chunks, cfg)) <= chunks
    ensures Covered(chunks, cfg.segmentSize, cfg.overlapTokens, Passes(chunks, cfg)) == chunks
       <==> |Cuts(chunks, cfg.segmentSize, cfg.overlapTokens)| <= cfg.maxPasses
  {
    var cuts, n := Cuts(chunks, cfg.segmentSize, cfg.overlapTokens), Passes(chunks, cfg);
    SegmentsReconstruct(chunks, cfg.segmentSize, cfg.overlapTokens, n);
    AllSegmentsReconstruct(chunks, cfg.segmentSize, cfg.overlapTokens);
    CutsAreChained(chunks, cfg.segmentSize, cfg.overlapTokens, 0, 0);
    if n < |cuts| {
      assert cuts[n - 1].hi < cuts[(n - 1) + 1].hi;
    }
  }
}
