/** What the scores mean, by the effect of each weight, position, flag and search. */
module HybridScores {
  import opened Chunks
  import opened Budgets
  import opened Keyed
  import opened HybridModel

  // ---- the weights ----

  lemma Distributes(a: real, w: real, d: real, rest: real, boost: real)
    ensures (a * (w + d) + rest) * boost == (a * w + rest) * boost + d * a * boost
  {
    assert a * (w + d) == a * w + d * a;
    assert (a * w + d * a + rest) * boost == (a * w + rest) * boost + d * a * boost;
  }

  /** Each weight scales its own part score and no other: raising it by d raises the combined score by d
      times that part, boosted. Without any weight there is no score. */
  lemma WeightEffect(cfg: HybridConfig, c: ScoredChunk, d: real)
    ensures CombinedScore(cfg.(vectorWeight := cfg.vectorWeight + d), c)
         == CombinedScore(cfg, c) + d * c.vectorScore * c.summaryBoost
    ensures CombinedScore(cfg.(fullDocWeight := cfg.fullDocWeight + d), c)
         == CombinedScore(cfg, c) + d * c.fullDocScore * c.summaryBoost
    ensures CombinedScore(cfg.(positionWeight := cfg.positionWeight + d), c)
         == CombinedScore(cfg, c) + d * c.positionScore * c.summaryBoost
    ensures CombinedScore(cfg.(vectorWeight := 0.0, fullDocWeight := 0.0, positionWeight := 0.0), c) == 0.0
  {
    var v, f := c.vectorScore * cfg.vectorWeight, c.fullDocScore * cfg.fullDocWeight;
    var p := c.positionScore * cfg.positionWeight;
    Distributes(c.vectorScore, cfg.vectorWeight, d, f + p, c.summaryBoost);
    Distributes(c.fullDocScore, cfg.fullDocWeight, d, v + p, c.summaryBoost);
    Distributes(c.positionScore, cfg.positionWeight, d, v + f, c.summaryBoost);
  }

  /** Configurations that boost alike make candidates that differ in their combined score only. */
  lemma OnlyWeightsDiffer(cfg: HybridConfig, other: HybridConfig, estimate: string -> nat,
                          vector: seq<RetrievedChunk>, fullDoc: seq<RetrievedChunk>, k: string)
    requires k in KeysOf(vector, ChunkKey) + KeysOf(fullDoc, ChunkKey)
    requires cfg.includeSummaries == other.includeSummaries && cfg.summaryBoost == other.summaryBoost
    ensures Candidate(other, estimate, vector, fullDoc, k)
         == Rescored(other, Candidate(cfg, estimate, vector, fullDoc, k))
    ensures Candidate(cfg, estimate, vector, fullDoc, k).combinedScore
         == CombinedScore(cfg, Candidate(cfg, estimate, vector, fullDoc, k))
  {
  }

  /** Which weight is raised, if any. */
  datatype Weight = VectorWeight | FullDocWeight | PositionWeight

  function Raised(cfg: HybridConfig, w: Weight, d: real): HybridConfig {
    match w
    case VectorWeight => cfg.(vectorWeight := cfg.vectorWeight + d)
    case FullDocWeight => cfg.(fullDocWeight := cfg.fullDocWeight + d)
    case PositionWeight => cfg.(positionWeight := cfg.positionWeight + d)
  }

  function PartOf(c: ScoredChunk, w: Weight): real {
    match w
    case VectorWeight => c.vectorScore
    case FullDocWeight => c.fullDocScore
    case PositionWeight => c.positionScore
  }

  /** c with d times a part, boosted, more of score. */
  function Gained(c: ScoredChunk, w: Weight, d: real): ScoredChunk {
    c.(combinedScore := c.combinedScore + d * PartOf(c, w) * c.summaryBoost)
  }

  lemma RaisedEffect(cfg: HybridConfig, c: ScoredChunk, w: Weight, d: real)
    requires c.combinedScore == CombinedScore(cfg, c)
    ensures Rescored(Raised(cfg, w, d), c) == Gained(c, w, d)
  {
    WeightEffect(cfg, c, d);
  }

  /** Raising one weight raises a key's score by that part of it, boosted, and changes nothing else about
      what the key ends up with. */
  lemma CandidateWeightEffect(cfg: HybridConfig, estimate: string -> nat, vector: seq<RetrievedChunk>,
                              fullDoc: seq<RetrievedChunk>, k: string, w: Weight, d: real)
    requires k in KeysOf(vector, ChunkKey) + KeysOf(fullDoc, ChunkKey)
    ensures Candidate(Raised(cfg, w, d), estimate, vector, fullDoc, k)
         == Gained(Candidate(cfg, estimate, vector, fullDoc, k), w, d)
  {
    OnlyWeightsDiffer(cfg, Raised(cfg, w, d), estimate, vector, fullDoc, k);
    RaisedEffect(cfg, Candidate(cfg, estimate, vector, fullDoc, k), w, d);
  }

  /** Without weight on it, the full-document search cannot change what the vector search scores; and
      number and total cannot change what a chunk scores that only the vector search found. */
  lemma WeightlessParts(cfg: HybridConfig, estimate: string -> nat, vector: seq<RetrievedChunk>,
                        fullDoc: seq<RetrievedChunk>, k: string, c: RetrievedChunk, number: int, total: int)
    ensures cfg.fullDocWeight == 0.0 && k in KeysOf(vector, ChunkKey) ==>
              Candidate(cfg, estimate, vector, fullDoc, k).combinedScore
              == Candidate(cfg, estimate, vector, [], k).combinedScore
    ensures cfg.positionWeight == 0.0 && c.id != "" ==>
              && c.id in KeysOf([c], ChunkKey)
              && c.id in KeysOf([c.(chunkNumber := number, totalChunks := total)], ChunkKey)
              && Candidate(cfg, estimate, [c], [], c.id).combinedScore
                 == Candidate(cfg, estimate, [c.(chunkNumber := number, totalChunks := total)], [], c.id).combinedScore
  {
    OnlyKey(c);
    OnlyKey(c.(chunkNumber := number, totalChunks := total));
  }

  lemma OnlyKey(c: RetrievedChunk)
    ensures KeysOf([c], ChunkKey) == {ChunkKey(c)} && LastWith([c], ChunkKey, ChunkKey(c)) == c
  {
    var one := [c];
    assert one[..|one| - 1] == [];
  }

  // ---- the part scores ----

  /** The first chunk scores 1, one at the total 0, and each step on the way costs the same; so of two
      numbers the earlier scores more. An unknown total counts as 100. */
  lemma PositionEffect(m: int, n: int, total: int)
    ensures PositionScore(0, total) == 1.0
    ensures total > 0 ==> PositionScore(total, total) == 0.0
    ensures total <= 0 ==> PositionScore(m, total) == PositionScore(m, 100)
    ensures PositionScore(m, total) - PositionScore(m + 1, total)
         == PositionScore(n, total) - PositionScore(n + 1, total)
    ensures m < n ==> PositionScore(m, total) > PositionScore(n, total)
  {
    var t := if total <= 0 then 100.0 else total as real;
    EvenSteps(m, t);
    EvenSteps(n, t);
    if m < n {
      Fractions(m as real, n as real, t);
    }
  }

  lemma EvenSteps(m: int, t: real)
    requires t > 0.0
    ensures (m + 1) as real / t == m as real / t + 1.0 / t
  {
  }

  lemma Fractions(a: real, b: real, t: real)
    requires a < b && t > 0.0
    ensures a / t < b / t
  {
  }

  function Without(metadata: map<string, MetaValue>, name: string): map<string, MetaValue> {
    metadata - {name}
  }

  /** A late chunk without flags scores one half; an early number adds 0.3, a header flag 0.2 and a
      summary flag 0.3, when the flag is the boolean true and not otherwise; nothing else counts. */
  lemma FullDocEffect(c: RetrievedChunk, n: int, value: MetaValue, other: string)
    ensures n > 2 ==> FullDocScore(c.(chunkNumber := n, metadata := map[])) == 0.5
    ensures n <= 2 ==> FullDocScore(c.(chunkNumber := n)) == FullDocScore(c.(chunkNumber := 3)) + 0.3
    ensures FullDocScore(c.(metadata := c.metadata["is_header" := value]))
         == FullDocScore(c.(metadata := Without(c.metadata, "is_header")))
            + if value == MetaBool(true) then 0.2 else 0.0
    ensures FullDocScore(c.(metadata := c.metadata["is_summary" := value]))
         == FullDocScore(c.(metadata := Without(c.metadata, "is_summary")))
            + if value == MetaBool(true) then 0.3 else 0.0
    ensures other != "is_header" && other != "is_summary" ==>
              FullDocScore(c.(metadata := c.metadata[other := value])) == FullDocScore(c)
    ensures n > 2 && c.chunkNumber > 2 ==> FullDocScore(c.(chunkNumber := n)) == FullDocScore(c)
  {
    assert |"is_header"| == 9 && |"is_summary"| == 10;
  }

  /** Metadata that mark a summary: the flag, or one of three chunk types. */
  predicate MarksSummary(metadata: map<string, MetaValue>) {
    || ("is_summary" in metadata && metadata["is_summary"] == MetaBool(true))
    || ("chunk_type" in metadata
        && (metadata["chunk_type"] == MetaText("summary")
            || metadata["chunk_type"] == MetaText("abstract")
            || metadata["chunk_type"] == MetaText("introduction")))
  }

  /** The boost applies exactly to summaries, and only when summaries are included; otherwise the
      configured boost makes no difference. */
  lemma BoostEffect(cfg: HybridConfig, c: RetrievedChunk, boost: real)
    ensures SummaryBoost(cfg.(summaryBoost := boost), c)
         == if cfg.includeSummaries && MarksSummary(c.metadata) then boost else 1.0
  {
  }

  // ---- which chunk is scored, and from where ----

  /** What a candidate is made of. A key of the vector search takes the last chunk it returned there with
      that chunk's score; any other key takes the first of the full documents and has no vector score. The
      full-document score is that of the last one there, and there is none for a key not found there. */
  lemma CandidateParts(cfg: HybridConfig, estimate: string -> nat, vector: seq<RetrievedChunk>,
                       fullDoc: seq<RetrievedChunk>, k: string, i: nat, j: nat)
    requires k in KeysOf(vector, ChunkKey) + KeysOf(fullDoc, ChunkKey)
    ensures var c := Candidate(cfg, estimate, vector, fullDoc, k);
            && (LastAt(vector, ChunkKey, k, i) ==> c.chunk == vector[i] && c.vectorScore == vector[i].score)
            && (k !in KeysOf(vector, ChunkKey) && FirstAt(fullDoc, ChunkKey, k, i) ==>
                  c.chunk == fullDoc[i] && c.vectorScore == 0.0)
            && (LastAt(fullDoc, ChunkKey, k, j) ==> c.fullDocScore == FullDocScore(fullDoc[j]))
            && (k !in KeysOf(fullDoc, ChunkKey) ==> c.fullDocScore == 0.0)
            && c.positionScore == PositionScore(c.chunk.chunkNumber, c.chunk.totalChunks)
            && c.summaryBoost == SummaryBoost(cfg, c.chunk)
            && c.estimatedTokens == estimate(c.chunk.content)
  {
    if LastAt(vector, ChunkKey, k, i) {
      LastWithIsLast(vector, ChunkKey, k, i);
    }
    if FirstAt(fullDoc, ChunkKey, k, i) {
      FirstWithIsFirst(fullDoc, ChunkKey, k, i);
    }
    if LastAt(fullDoc, ChunkKey, k, j) {
      LastWithIsLast(fullDoc, ChunkKey, k, j);
    }
  }

  /** A chunk counts for the vector search when that returned its key, or when the full documents hold it
      twice; for the full documents exactly when they hold it. */
  lemma SourceMeans(vector: seq<RetrievedChunk>, fullDoc: seq<RetrievedChunk>, k: string)
    requires k in KeysOf(vector, ChunkKey) + KeysOf(fullDoc, ChunkKey)
    ensures ExpectedSource(vector, fullDoc, k) != FromFullDoc
       <==> k in KeysOf(vector, ChunkKey) || Occurrences(fullDoc, ChunkKey, k) >= 2
    ensures ExpectedSource(vector, fullDoc, k) != FromVector <==> k in KeysOf(fullDoc, ChunkKey)
  {
    KeysOfMember(fullDoc, ChunkKey, k);
    if k in KeysOf(fullDoc, ChunkKey) {
      var i :| 0 <= i < |fullDoc| && ChunkKey(fullDoc[i]) == k;
      TotalCovers(fullDoc, i, HasKey(ChunkKey, k));
    } else {
      NoOccurrence(fullDoc, k);
    }
  }

  lemma {:induction false} NoOccurrence(s: seq<RetrievedChunk>, k: string)
    requires k !in KeysOf(s, ChunkKey)
    ensures Occurrences(s, ChunkKey, k) == 0
  {
    if s != [] {
      NoOccurrence(s[..|s| - 1], k);
    }
  }
}
