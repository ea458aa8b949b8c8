/** The hybrid context builder's configuration, scores and keys. */
module HybridModel {
  import opened Chunks
  import opened Budgets
  import opened Keyed

  datatype PriorityTier = PriorityTier(name: string, minScore: real, maxTokens: int, percentage: real)

  datatype HybridConfig = HybridConfig(
    vectorWeight: real,
    fullDocWeight: real,
    positionWeight: real,
    summaryBoost: real,
    tokenBudget: int,
    includeSummaries: bool,
    deduplicateByContent: bool,
    priorityTiers: seq<PriorityTier>)

  datatype Source = FromVector | FromFullDoc | FromBoth

  datatype ScoredChunk = ScoredChunk(
    chunk: RetrievedChunk,
    vectorScore: real,
    positionScore: real,
    fullDocScore: real,
    summaryBoost: real,
    combinedScore: real,
    source: Source,
    priorityTier: string,
    estimatedTokens: nat)

  function Tokens(c: ScoredChunk): nat { c.estimatedTokens }

  /** Descending order of combined score. */
  predicate HigherFirst(a: ScoredChunk, b: ScoredChunk) { a.combinedScore >= b.combinedScore }

  // ---- keys ----

  /** Go's int to rune conversion keeps the low 32 bits, signed. */
  function ToRune(n: int): int {
    var low := n % 0x1_0000_0000;
    if low >= 0x8000_0000 then low - 0x1_0000_0000 else low
  }

  predicate IsCodePoint(r: int) {
    0 <= r < 0xD800 || 0xE000 <= r < 0x11_0000
  }

  /** Go's string(rune(n)): one character, U+FFFD when n is no code point. */
  function RuneText(n: int): char {
    if IsCodePoint(ToRune(n)) then ToRune(n) as char else '\U{FFFD}'
  }

  /** A number that is a code point renders as that; one that is none, and any that differs by a multiple of
      2^32, as that one does, else as U+FFFD. */
  lemma RuneTextMeans(n: int, k: int)
    ensures IsCodePoint(n) ==> RuneText(n) as int == n
    ensures -0x8000_0000 <= n < 0x8000_0000 && !IsCodePoint(n) ==> RuneText(n) as int == 0xFFFD
    ensures RuneText(n + 0x1_0000_0000 * k) == RuneText(n)
  {
    assert (n + 0x1_0000_0000 * k) % 0x1_0000_0000 == n % 0x1_0000_0000;
  }

  function ChunkKey(c: RetrievedChunk): string {
    if c.id != "" then c.id else c.documentID + "_" + [RuneText(c.chunkNumber)]
  }

  function KeyOf(c: ScoredChunk): string { ChunkKey(c.chunk) }

  /** When two chunks share a key. With IDs: when the IDs are equal. Without: when they share the
      document and their numbers render as the same character, which chunk numbers below 0xD800 do only
      when equal. One with an ID and one without: when the ID happens to be the other's key. */
  lemma ChunkKeyCollision(a: RetrievedChunk, b: RetrievedChunk)
    ensures a.id != "" && b.id != "" ==> (ChunkKey(a) == ChunkKey(b) <==> a.id == b.id)
    ensures a.id == "" && b.id == "" ==>
              (ChunkKey(a) == ChunkKey(b) <==>
                 a.documentID == b.documentID && RuneText(a.chunkNumber) == RuneText(b.chunkNumber))
    ensures a.id == "" && b.id == "" && 0 <= a.chunkNumber < 0xD800 && 0 <= b.chunkNumber < 0xD800 ==>
              (ChunkKey(a) == ChunkKey(b) <==> a.documentID == b.documentID && a.chunkNumber == b.chunkNumber)
    ensures a.id != "" && b.id == "" ==>
              (ChunkKey(a) == ChunkKey(b) <==>
                 && |a.id| == |b.documentID| + 2
                 && a.id[..|b.documentID|] == b.documentID
                 && a.id[|b.documentID|] == '_'
                 && a.id[|b.documentID| + 1] == RuneText(b.chunkNumber))
  {
    var x, y := ChunkKey(a), ChunkKey(b);
    if b.id == "" {
      var n := |b.documentID|;
      assert |y| == n + 2 && y[..n] == b.documentID && y[n] == '_' && y[n + 1] == RuneText(b.chunkNumber);
      if a.id == "" {
        assert x[|x| - 1] == RuneText(a.chunkNumber) && x[..|x| - 2] == a.documentID;
      } else if |x| == n + 2 {
        assert x == x[..n] + [x[n], x[n + 1]];
      }
    }
  }

  /** A chunk of a document, without content, by its ID and number. */
  function Numbered(id: string, document: string, number: int): RetrievedChunk {
    RetrievedChunk(id, document, "", "", number, 0, 0.0, "", map[])
  }

  /** Collisions do occur: numbers that are no code points, numbers 2^32 apart, and an ID that spells out
      another chunk's key. */
  lemma ChunkKeysCollide(document: string)
    ensures ChunkKey(Numbered("", document, 0xD800)) == ChunkKey(Numbered("", document, 0xD801))
    ensures ChunkKey(Numbered("", document, 1)) == ChunkKey(Numbered("", document, 0x1_0000_0001))
    ensures ChunkKey(Numbered("", document, 65)) == ChunkKey(Numbered(document + "_A", document, 0))
  {
  }

  // ---- scores ----

  predicate Flagged(metadata: map<string, MetaValue>, name: string) {
    name in metadata && metadata[name] == MetaBool(true)
  }

  function PositionScore(chunkNumber: int, totalChunks: int): real {
    var total := if totalChunks <= 0 then 100 else totalChunks;
    1.0 - chunkNumber as real / total as real
  }

  function FullDocScore(c: RetrievedChunk): real {
    0.5
    + (if c.chunkNumber <= 2 then 0.3 else 0.0)
    + (if Flagged(c.metadata, "is_header") then 0.2 else 0.0)
    + (if Flagged(c.metadata, "is_summary") then 0.3 else 0.0)
  }

  function SummaryBoost(cfg: HybridConfig, c: RetrievedChunk): real {
    if !cfg.includeSummaries then 1.0
    else if Flagged(c.metadata, "is_summary") then cfg.summaryBoost
    else if "chunk_type" in c.metadata
         && c.metadata["chunk_type"] in {MetaText("summary"), MetaText("abstract"), MetaText("introduction")}
    then cfg.summaryBoost
    else 1.0
  }

  function Weighted(vector: real, vectorWeight: real, fullDoc: real, fullDocWeight: real,
                    position: real, positionWeight: real, boost: real): real {
    (vector * vectorWeight + fullDoc * fullDocWeight + position * positionWeight) * boost
  }

  function CombinedScore(cfg: HybridConfig, c: ScoredChunk): real {
    Weighted(c.vectorScore, cfg.vectorWeight, c.fullDocScore, cfg.fullDocWeight,
             c.positionScore, cfg.positionWeight, c.summaryBoost)
  }

  function Rescored(cfg: HybridConfig, c: ScoredChunk): ScoredChunk {
    c.(combinedScore := CombinedScore(cfg, c))
  }

  // ---- what scoring should produce ----

  /** How often key k is retrieved by each search decides the recorded source. A key the full
      documents hold twice counts as "both" even when the vector search never saw it. */
  function ExpectedSource(vector: seq<RetrievedChunk>, fullDoc: seq<RetrievedChunk>, k: string): Source {
    if Occurrences(fullDoc, ChunkKey, k) == 0 then FromVector
    else if k in KeysOf(vector, ChunkKey) || Occurrences(fullDoc, ChunkKey, k) >= 2 then FromBoth
    else FromFullDoc
  }

  /** The scored chunk key k must end up with: the surviving chunk, scored from its own vector
      score, its own position and the last full-document chunk with that key. */
  function Candidate(cfg: HybridConfig, estimate: string -> nat,
                     vector: seq<RetrievedChunk>, fullDoc: seq<RetrievedChunk>, k: string): ScoredChunk
    requires k in KeysOf(vector, ChunkKey) + KeysOf(fullDoc, ChunkKey)
  {
    var base := Survivor(vector, fullDoc, ChunkKey, k);
    Rescored(cfg, ScoredChunk(
      base,
      if k in KeysOf(vector, ChunkKey) then base.score else 0.0,
      PositionScore(base.chunkNumber, base.totalChunks),
      if k in KeysOf(fullDoc, ChunkKey) then FullDocScore(LastWith(fullDoc, ChunkKey, k)) else 0.0,
      SummaryBoost(cfg, base),
      0.0,
      ExpectedSource(vector, fullDoc, k),
      "",
      estimate(base.content)))
  }

  /** Distinct keys, exactly the retrieved ones, each with its candidate, best score first. */
  ghost predicate ScoredFrom(cfg: HybridConfig, estimate: string -> nat,
                             vector: seq<RetrievedChunk>, fullDoc: seq<RetrievedChunk>, scored: seq<ScoredChunk>) {
    && Sorted(scored, HigherFirst)
    && DistinctBy(scored, KeyOf)
    && KeysOf(scored, KeyOf) == KeysOf(vector, ChunkKey) + KeysOf(fullDoc, ChunkKey)
    && forall c | c in scored ::
         && KeyOf(c) in KeysOf(vector, ChunkKey) + KeysOf(fullDoc, ChunkKey)
         && c == Candidate(cfg, estimate, vector, fullDoc, KeyOf(c))
  }
}
