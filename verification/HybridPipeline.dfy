/** Building hybrid context end to end: score, deduplicate, assign tiers, fit to the budget. */
module HybridPipeline {
  import opened Text
  import opened Chunks
  import opened Budgets
  import opened Keyed
  import opened HybridModel
  import opened HybridScores
  import opened HybridScoring
  import opened HybridStages
  import opened HybridAllocation
  import opened HybridGuarantees

  datatype HybridResult = HybridResult(
    chunks: seq<RetrievedChunk>,
    totalTokens: nat,
    scored: seq<ScoredChunk>,
    vectorCount: nat,
    fullDocCount: nat,
    duplicatesRemoved: nat,
    breakdown: map<string, int>)

  function VectorHit(c: ScoredChunk): nat { if c.source == FromFullDoc then 0 else 1 }

  function FullDocHit(c: ScoredChunk): nat { if c.source == FromVector then 0 else 1 }

  /** A candidate counts once for the vector search if that returned its key, or the full documents hold it
      twice, and once for the full documents if they hold it. */
  lemma HitsMean(cfg: HybridConfig, estimate: string -> nat, vector: seq<RetrievedChunk>, fullDoc: seq<RetrievedChunk>,
                 k: string)
    requires k in KeysOf(vector, ChunkKey) + KeysOf(fullDoc, ChunkKey)
    ensures VectorHit(Candidate(cfg, estimate, vector, fullDoc, k))
         == if k in KeysOf(vector, ChunkKey) || Occurrences(fullDoc, ChunkKey, k) >= 2 then 1 else 0
    ensures FullDocHit(Candidate(cfg, estimate, vector, fullDoc, k)) == if k in KeysOf(fullDoc, ChunkKey) then 1 else 0
  {
    SourceMeans(vector, fullDoc, k);
  }

  /** The two searches' distinct keys. */
  function RetrievedKeys(vector: seq<RetrievedChunk>, fullDoc: seq<RetrievedChunk>): set<string> {
    KeysOf(vector, ChunkKey) + KeysOf(fullDoc, ChunkKey)
  }

  /** c is the candidate of its key, placed in a tier its score belongs to. */
  ghost predicate IsCandidate(cfg: HybridConfig, estimate: string -> nat,
                              vector: seq<RetrievedChunk>, fullDoc: seq<RetrievedChunk>, c: ScoredChunk) {
    && KeyOf(c) in RetrievedKeys(vector, fullDoc)
    && c.(priorityTier := "") == Candidate(cfg, estimate, vector, fullDoc, KeyOf(c))
    && BelongsTo(cfg.priorityTiers, c.combinedScore, c.priorityTier)
  }

  /** Candidate d speaks for candidate c: it is c, or a duplicate of its content scoring no worse. */
  ghost predicate SpeaksFor(cfg: HybridConfig, hash: string -> string, d: ScoredChunk, c: ScoredChunk) {
    || KeyOf(d) == KeyOf(c)
    || (&& cfg.deduplicateByContent
        && hash(d.chunk.content) == hash(c.chunk.content)
        && d.combinedScore >= c.combinedScore)
  }

  /** Candidate c did not go missing: a candidate speaking for it was selected, or is larger than all
      the room the selection leaves. */
  ghost predicate Accounted(cfg: HybridConfig, estimate: string -> nat, hash: string -> string,
                            vector: seq<RetrievedChunk>, fullDoc: seq<RetrievedChunk>,
                            selected: seq<ScoredChunk>, c: ScoredChunk) {
    exists d :: IsCandidate(cfg, estimate, vector, fullDoc, d) && SpeaksFor(cfg, hash, d, c)
             && SelectedOrTooLarge(cfg, selected, d)
  }

  ghost predicate SelectedOrTooLarge(cfg: HybridConfig, selected: seq<ScoredChunk>, d: ScoredChunk) {
    d in selected || (cfg.tokenBudget > 0 && d.estimatedTokens > cfg.tokenBudget - Total(selected, Tokens))
  }

  /** Some staged chunk speaks for candidate c. */
  ghost predicate SpokenFor(cfg: HybridConfig, hash: string -> string, tiered: seq<ScoredChunk>, c: ScoredChunk) {
    exists i :: 0 <= i < |tiered| && SpeaksFor(cfg, hash, tiered[i], c)
  }

  method Deduplicated(cfg: HybridConfig, scored: seq<ScoredChunk>, hash: string -> string)
    returns (kept: seq<ScoredChunk>, removed: nat)
    requires Sorted(scored, HigherFirst) && DistinctBy(scored, KeyOf)
    ensures Sorted(kept, HigherFirst) && DistinctBy(kept, KeyOf)
    ensures |kept| + removed == |scored|
    ensures !cfg.deduplicateByContent ==> kept == scored
    ensures cfg.deduplicateByContent ==>
              DistinctBy(kept, ContentHash(hash)) && Represents(kept, scored, ContentHash(hash))
  {
    kept, removed := scored, 0;
    if cfg.deduplicateByContent {
      kept, removed := DeduplicateByContent(scored, hash);
      FirstOccurrencesDistinct(scored, ContentHash(hash));
      FirstOccurrencesThin(scored, ContentHash(hash), "");
    }
  }

  // ---- the selection, given what each stage produced ----

  /** What the stages up to tier assignment hand to the allocator. */
  ghost predicate Staged(cfg: HybridConfig, estimate: string -> nat, hash: string -> string,
                         vector: seq<RetrievedChunk>, fullDoc: seq<RetrievedChunk>, tiered: seq<ScoredChunk>) {
    && Sorted(tiered, HigherFirst)
    && DistinctBy(tiered, KeyOf)
    && (cfg.deduplicateByContent ==> DistinctBy(tiered, ContentHash(hash)))
    && (forall i | 0 <= i < |tiered| :: IsCandidate(cfg, estimate, vector, fullDoc, tiered[i]))
    && (forall k | k in RetrievedKeys(vector, fullDoc) ::
          SpokenFor(cfg, hash, tiered, Candidate(cfg, estimate, vector, fullDoc, k)))
  }

  lemma StagesCompose(cfg: HybridConfig, estimate: string -> nat, hash: string -> string,
                      vector: seq<RetrievedChunk>, fullDoc: seq<RetrievedChunk>,
                      scored: seq<ScoredChunk>, kept: seq<ScoredChunk>, tiered: seq<ScoredChunk>)
    requires ScoredFrom(cfg, estimate, vector, fullDoc, scored)
    requires Sorted(kept, HigherFirst) && DistinctBy(kept, KeyOf)
    requires !cfg.deduplicateByContent ==> kept == scored
    requires cfg.deduplicateByContent ==>
               DistinctBy(kept, ContentHash(hash)) && Represents(kept, scored, ContentHash(hash))
    requires |tiered| == |kept|
    requires forall i | 0 <= i < |kept| ::
               && tiered[i] == kept[i].(priorityTier := tiered[i].priorityTier)
               && BelongsTo(cfg.priorityTiers, kept[i].combinedScore, tiered[i].priorityTier)
    ensures Staged(cfg, estimate, hash, vector, fullDoc, tiered)
  {
    forall i | 0 <= i < |tiered| ensures IsCandidate(cfg, estimate, vector, fullDoc, tiered[i]) {
      assert kept[i] in scored;
    }
    forall k | k in RetrievedKeys(vector, fullDoc)
      ensures SpokenFor(cfg, hash, tiered, Candidate(cfg, estimate, vector, fullDoc, k))
    {
      KeysOfMember(scored, KeyOf, k);
      var j :| 0 <= j < |scored| && KeyOf(scored[j]) == k;
      assert scored[j] in scored;
      StagedSpeaks(cfg, hash, scored, kept, tiered, j);
    }
  }

  lemma StagedSpeaks(cfg: HybridConfig, hash: string -> string,
                     scored: seq<ScoredChunk>, kept: seq<ScoredChunk>, tiered: seq<ScoredChunk>, j: nat)
    requires !cfg.deduplicateByContent ==> kept == scored
    requires cfg.deduplicateByContent ==> Represents(kept, scored, ContentHash(hash))
    requires |tiered| == |kept|
    requires forall i | 0 <= i < |kept| :: tiered[i] == kept[i].(priorityTier := tiered[i].priorityTier)
    requires j < |scored|
    ensures SpokenFor(cfg, hash, tiered, scored[j])
  {
    var h := ContentHash(hash);
    if cfg.deduplicateByContent {
      assert Represented(kept, h, h(scored[j]), scored[j].combinedScore);
      var i :| 0 <= i < |kept| && h(kept[i]) == h(scored[j]) && kept[i].combinedScore >= scored[j].combinedScore;
      assert SpeaksFor(cfg, hash, tiered[i], scored[j]);
    } else {
      assert SpeaksFor(cfg, hash, tiered[j], scored[j]);
    }
  }

  /** Without a budget everything staged is selected; with one, what the allocator chose. */
  ghost predicate Fitted(cfg: HybridConfig, tiered: seq<ScoredChunk>, selected: seq<ScoredChunk>,
                         breakdown: map<string, int>) {
    && (cfg.tokenBudget <= 0 ==> selected == tiered && breakdown == map[])
    && (cfg.tokenBudget > 0 ==>
          && multiset(selected) == multiset(Allot(cfg, tiered).chosen)
          && Sorted(selected, HigherFirst)
          && breakdown == Allot(cfg, tiered).booked)
  }

  /** The selection is drawn from what was staged, without repetition of key or content. */
  lemma SelectionIsDrawn(cfg: HybridConfig, hash: string -> string, tiered: seq<ScoredChunk>,
                         selected: seq<ScoredChunk>, breakdown: map<string, int>)
    requires DistinctBy(tiered, KeyOf) && Fitted(cfg, tiered, selected, breakdown)
    requires cfg.tokenBudget <= 0 || DistinctReserves(cfg)
    ensures forall c | c in selected :: c in tiered
    ensures DistinctBy(selected, KeyOf)
    ensures DistinctBy(tiered, ContentHash(hash)) ==> DistinctBy(selected, ContentHash(hash))
  {
    if cfg.tokenBudget > 0 {
      var chosen := Allot(cfg, tiered).chosen;
      NoChunkTwice(cfg, tiered);
      WithinBudget(cfg, tiered);
      DistinctPermutation(chosen, selected, KeyOf);
      forall c | c in selected ensures c in tiered {
        assert c in multiset(selected);
      }
      DistinctContent(selected, tiered, ContentHash(hash));
    }
  }

  lemma DistinctContent(selected: seq<ScoredChunk>, tiered: seq<ScoredChunk>, h: ScoredChunk -> string)
    requires DistinctBy(selected, KeyOf) && forall c | c in selected :: c in tiered
    ensures DistinctBy(tiered, h) ==> DistinctBy(selected, h)
  {
    if DistinctBy(tiered, h) {
      forall i, j | 0 <= i < j < |selected| ensures h(selected[i]) != h(selected[j]) {
        assert selected[i] in tiered && selected[j] in tiered;
      }
    }
  }

  /** The accounts of the selection: in budget, and every tier's booking exact. */
  lemma SelectionIsBooked(cfg: HybridConfig, tiered: seq<ScoredChunk>, selected: seq<ScoredChunk>,
                          breakdown: map<string, int>, name: string)
    requires Fitted(cfg, tiered, selected, breakdown) && cfg.tokenBudget > 0
    ensures Total(selected, Tokens) <= cfg.tokenBudget
    ensures DistinctBookings(cfg) ==> Booked(breakdown, name) == Total(selected, TierTokens(name))
  {
    var chosen := Allot(cfg, tiered).chosen;
    WithinBudget(cfg, tiered);
    TotalPermutation(selected, chosen, Tokens);
    TotalPermutation(selected, chosen, TierTokens(name));
    if DistinctBookings(cfg) {
      BreakdownIsExact(cfg, tiered, name);
    }
  }

  /** A staged chunk is selected, or larger than the room left. */
  lemma StagedIsSelectedOrTooLarge(cfg: HybridConfig, tiered: seq<ScoredChunk>, selected: seq<ScoredChunk>,
                                   breakdown: map<string, int>, c: ScoredChunk)
    requires DistinctBy(tiered, KeyOf) && TiersAssigned(cfg, tiered)
    requires Fitted(cfg, tiered, selected, breakdown)
    requires cfg.tokenBudget <= 0 || NonNegativeShares(cfg)
    requires c in tiered
    ensures SelectedOrTooLarge(cfg, selected, c)
  {
    if c !in selected {
      assert c !in multiset(selected);
      LeftOutIsTooLargeAlways(cfg, tiered, c);
      TotalPermutation(selected, Allot(cfg, tiered).chosen, Tokens);
    }
  }

  lemma NothingGoesMissing(cfg: HybridConfig, estimate: string -> nat, hash: string -> string,
                           vector: seq<RetrievedChunk>, fullDoc: seq<RetrievedChunk>, tiered: seq<ScoredChunk>,
                           selected: seq<ScoredChunk>, breakdown: map<string, int>, c: ScoredChunk)
    requires DistinctBy(tiered, KeyOf) && TiersAssigned(cfg, tiered) && Fitted(cfg, tiered, selected, breakdown)
    requires forall i | 0 <= i < |tiered| :: IsCandidate(cfg, estimate, vector, fullDoc, tiered[i])
    requires cfg.tokenBudget <= 0 || NonNegativeShares(cfg)
    requires SpokenFor(cfg, hash, tiered, c)
    ensures Accounted(cfg, estimate, hash, vector, fullDoc, selected, c)
  {
    var i :| 0 <= i < |tiered| && SpeaksFor(cfg, hash, tiered[i], c);
    StagedIsSelectedOrTooLarge(cfg, tiered, selected, breakdown, tiered[i]);
  }

  /** The assembled result agrees with the selection it was built from. */
  ghost predicate Reports(r: HybridResult) {
    && |r.chunks| == |r.scored|
    && (forall i | 0 <= i < |r.scored| :: r.chunks[i] == r.scored[i].chunk.(score := r.scored[i].combinedScore))
    && r.totalTokens == Total(r.scored, Tokens)
    && r.vectorCount == Total(r.scored, VectorHit)
    && r.fullDocCount == Total(r.scored, FullDocHit)
  }

  method Assemble(selected: seq<ScoredChunk>, removed: nat, breakdown: map<string, int>) returns (r: HybridResult)
    ensures Reports(r)
    ensures r.scored == selected && r.duplicatesRemoved == removed && r.breakdown == breakdown
  {
    var chunks, total, vectorCount, fullDocCount := [], 0, 0, 0;
    for i := 0 to |selected|
      invariant |chunks| == i
      invariant forall j | 0 <= j < i :: chunks[j] == selected[j].chunk.(score := selected[j].combinedScore)
      invariant total == Total(selected[..i], Tokens)
      invariant vectorCount == Total(selected[..i], VectorHit)
      invariant fullDocCount == Total(selected[..i], FullDocHit)
    {
      var sc := selected[i];
      assert selected[..i + 1][..i] == selected[..i];
      chunks := chunks + [sc.chunk.(score := sc.combinedScore)];
      total := total + sc.estimatedTokens;
      match sc.source
      case FromVector => vectorCount := vectorCount + 1;
      case FromFullDoc => fullDocCount := fullDocCount + 1;
      case FromBoth => vectorCount, fullDocCount := vectorCount + 1, fullDocCount + 1;
    }
    assert selected[..|selected|] == selected;
    r := HybridResult(chunks, total, selected, vectorCount, fullDocCount, removed, breakdown);
  }

  /** Every selected chunk is its key's candidate, and neither key nor (deduplicating) content repeats. */
  ghost predicate Faithful(cfg: HybridConfig, estimate: string -> nat, hash: string -> string,
                           vector: seq<RetrievedChunk>, fullDoc: seq<RetrievedChunk>, selected: seq<ScoredChunk>) {
    && (forall c | c in selected :: IsCandidate(cfg, estimate, vector, fullDoc, c))
    && DistinctBy(selected, KeyOf)
    && (cfg.deduplicateByContent ==> DistinctBy(selected, ContentHash(hash)))
  }

  /** The budget holds and, for distinct reserves, the breakdown is exact. */
  ghost predicate Balanced(cfg: HybridConfig, selected: seq<ScoredChunk>, breakdown: map<string, int>) {
    && Total(selected, Tokens) <= cfg.tokenBudget
    && (DistinctBookings(cfg) ==> forall name :: Booked(breakdown, name) == Total(selected, TierTokens(name)))
  }

  /** No retrieved key goes missing without a reason. */
  ghost predicate Complete(cfg: HybridConfig, estimate: string -> nat, hash: string -> string,
                           vector: seq<RetrievedChunk>, fullDoc: seq<RetrievedChunk>, selected: seq<ScoredChunk>) {
    forall k | k in RetrievedKeys(vector, fullDoc) ::
      Accounted(cfg, estimate, hash, vector, fullDoc, selected, Candidate(cfg, estimate, vector, fullDoc, k))
  }

  lemma SelectionIsFaithful(cfg: HybridConfig, estimate: string -> nat, hash: string -> string,
                            vector: seq<RetrievedChunk>, fullDoc: seq<RetrievedChunk>, tiered: seq<ScoredChunk>,
                            selected: seq<ScoredChunk>, breakdown: map<string, int>)
    requires Staged(cfg, estimate, hash, vector, fullDoc, tiered) && Fitted(cfg, tiered, selected, breakdown)
    requires cfg.tokenBudget <= 0 || DistinctReserves(cfg)
    ensures Faithful(cfg, estimate, hash, vector, fullDoc, selected)
  {
    SelectionIsDrawn(cfg, hash, tiered, selected, breakdown);
    forall c | c in selected ensures IsCandidate(cfg, estimate, vector, fullDoc, c) {
      assert c in tiered;
    }
  }

  lemma SelectionIsBalanced(cfg: HybridConfig, tiered: seq<ScoredChunk>, selected: seq<ScoredChunk>,
                            breakdown: map<string, int>)
    requires Fitted(cfg, tiered, selected, breakdown) && cfg.tokenBudget > 0
    ensures Balanced(cfg, selected, breakdown)
  {
    SelectionIsBooked(cfg, tiered, selected, breakdown, "");
    if DistinctBookings(cfg) {
      forall name ensures Booked(breakdown, name) == Total(selected, TierTokens(name)) {
        SelectionIsBooked(cfg, tiered, selected, breakdown, name);
      }
    }
  }

  lemma SelectionIsComplete(cfg: HybridConfig, estimate: string -> nat, hash: string -> string,
                            vector: seq<RetrievedChunk>, fullDoc: seq<RetrievedChunk>, tiered: seq<ScoredChunk>,
                            selected: seq<ScoredChunk>, breakdown: map<string, int>)
    requires Staged(cfg, estimate, hash, vector, fullDoc, tiered) && Fitted(cfg, tiered, selected, breakdown)
    requires cfg.tokenBudget <= 0 || NonNegativeShares(cfg)
    ensures Complete(cfg, estimate, hash, vector, fullDoc, selected)
  {
    forall i | 0 <= i < |tiered|
      ensures BelongsTo(cfg.priorityTiers, tiered[i].combinedScore, tiered[i].priorityTier)
    {
      assert IsCandidate(cfg, estimate, vector, fullDoc, tiered[i]);
    }
    forall k | k in RetrievedKeys(vector, fullDoc)
      ensures Accounted(cfg, estimate, hash, vector, fullDoc, selected, Candidate(cfg, estimate, vector, fullDoc, k))
    {
      NothingGoesMissing(cfg, estimate, hash, vector, fullDoc, tiered, selected, breakdown,
                         Candidate(cfg, estimate, vector, fullDoc, k));
    }
  }

  /** Everything the selection guarantees. Names of tiers with a reserve are assumed distinct, and
      percentages not negative, only where they matter and only when there is a budget to split. */
  ghost predicate Guaranteed(cfg: HybridConfig, estimate: string -> nat, hash: string -> string,
                             vector: seq<RetrievedChunk>, fullDoc: seq<RetrievedChunk>,
                             selected: seq<ScoredChunk>, breakdown: map<string, int>) {
    && Sorted(selected, HigherFirst)
    && (cfg.tokenBudget <= 0 || DistinctReserves(cfg) ==> Faithful(cfg, estimate, hash, vector, fullDoc, selected))
    && (cfg.tokenBudget > 0 ==> Balanced(cfg, selected, breakdown))
    && (cfg.tokenBudget <= 0 || NonNegativeShares(cfg) ==> Complete(cfg, estimate, hash, vector, fullDoc, selected))
  }

  lemma SelectionGuarantees(cfg: HybridConfig, estimate: string -> nat, hash: string -> string,
                            vector: seq<RetrievedChunk>, fullDoc: seq<RetrievedChunk>, tiered: seq<ScoredChunk>,
                            selected: seq<ScoredChunk>, breakdown: map<string, int>)
    requires Staged(cfg, estimate, hash, vector, fullDoc, tiered) && Fitted(cfg, tiered, selected, breakdown)
    ensures Guaranteed(cfg, estimate, hash, vector, fullDoc, selected, breakdown)
  {
    if cfg.tokenBudget <= 0 || DistinctReserves(cfg) {
      SelectionIsFaithful(cfg, estimate, hash, vector, fullDoc, tiered, selected, breakdown);
    }
    if cfg.tokenBudget > 0 {
      SelectionIsBalanced(cfg, tiered, selected, breakdown);
    }
    if cfg.tokenBudget <= 0 || NonNegativeShares(cfg) {
      SelectionIsComplete(cfg, estimate, hash, vector, fullDoc, tiered, selected, breakdown);
    }
  }

  /** No starvation, end to end: a staged tier whose chunks fit its own reserve is selected whole,
      whatever the other tiers hold, if the reserve fits the budget together with the earlier ones. */
  lemma NoTierStarves(cfg: HybridConfig, tiered: seq<ScoredChunk>, selected: seq<ScoredChunk>,
                      breakdown: map<string, int>, i: nat, c: ScoredChunk)
    requires Fitted(cfg, tiered, selected, breakdown) && c in tiered
    requires cfg.tokenBudget > 0 ==>
               && DistinctTiers(cfg) && NonNegativeShares(cfg)
               && i < |cfg.priorityTiers| && ReserveFits(cfg, i) && c.priorityTier == cfg.priorityTiers[i].name
               && Total(InTier(tiered, c.priorityTier), Tokens) <= TierReserve(cfg, cfg.priorityTiers[i])
    ensures c in selected
  {
    if cfg.tokenBudget > 0 {
      NoStarvation(cfg, tiered, i, c);
      assert c in multiset(Allot(cfg, tiered).chosen);
      assert c in multiset(selected);
    }
  }

  // ---- the exact conditions, end to end ----

  /** With weight on the vector score, a chunk that the vector search finds alone is staged as it stands. */
  lemma SingleIsStaged(cfg: HybridConfig, hash: string -> string, t: PriorityTier, content: string)
    requires cfg.vectorWeight != 0.0 && t in cfg.priorityTiers
    ensures var c := ChunkAt(cfg, t, "id", content, EstimateTokenCount(content));
            Staged(cfg, EstimateTokenCount, hash, [c.chunk], [], [c])
  {
    var c := ChunkAt(cfg, t, "id", content, EstimateTokenCount(content));
    assert SpeaksFor(cfg, hash, [c][0], Candidate(cfg, EstimateTokenCount, [c.chunk], [], "id"));
  }

  lemma TokenIsStaged(cfg: HybridConfig, hash: string -> string, t: PriorityTier)
    requires cfg.vectorWeight != 0.0 && t in cfg.priorityTiers
    ensures Staged(cfg, EstimateTokenCount, hash, [Token(cfg, t).chunk], [], [Token(cfg, t)])
  {
    AsciiBytes("abcd");
    SingleIsStaged(cfg, hash, t, "abcd");
  }

  /** The allocation of whatever the stages hand over never repeats a chunk, exactly when no two tiers
      share a name that has a reserve. */
  lemma RepetitionEndToEnd(cfg: HybridConfig, hash: string -> string)
    requires cfg.tokenBudget > 0 && cfg.vectorWeight != 0.0
    ensures (forall vector, fullDoc, tiered | Staged(cfg, EstimateTokenCount, hash, vector, fullDoc, tiered) ::
               DistinctBy(Allot(cfg, tiered).chosen, KeyOf))
       <==> DistinctReserves(cfg)
  {
    if DistinctReserves(cfg) {
      forall vector, fullDoc, tiered | Staged(cfg, EstimateTokenCount, hash, vector, fullDoc, tiered)
        ensures DistinctBy(Allot(cfg, tiered).chosen, KeyOf)
      {
        NoChunkTwice(cfg, tiered);
      }
    } else {
      var i, j :| 0 <= i < j < |cfg.priorityTiers| && cfg.priorityTiers[i].name == cfg.priorityTiers[j].name
            && HasReserve(cfg, cfg.priorityTiers[i].name);
      RepetitionExample(cfg, i, j);
      SingleIsStaged(cfg, hash, cfg.priorityTiers[i], "");
    }
  }

  /** The breakdown of whatever the stages hand over is exact for every tier name, exactly when no two
      tiers share a name with a token in reserve. */
  lemma BreakdownEndToEnd(cfg: HybridConfig, hash: string -> string)
    requires cfg.tokenBudget > 0 && cfg.vectorWeight != 0.0
    ensures (forall vector, fullDoc, tiered, name | Staged(cfg, EstimateTokenCount, hash, vector, fullDoc, tiered) ::
               ExactlyBooked(Allot(cfg, tiered), name))
       <==> DistinctBookings(cfg)
  {
    if DistinctBookings(cfg) {
      forall vector, fullDoc, tiered, name | Staged(cfg, EstimateTokenCount, hash, vector, fullDoc, tiered)
        ensures ExactlyBooked(Allot(cfg, tiered), name)
      {
        BreakdownIsExact(cfg, tiered, name);
      }
    } else {
      var i, j :| 0 <= i < j < |cfg.priorityTiers| && cfg.priorityTiers[i].name == cfg.priorityTiers[j].name
            && ReservedFor(cfg, cfg.priorityTiers[i].name) >= 1;
      TokenIsStaged(cfg, hash, cfg.priorityTiers[i]);
      BookingLost(cfg, i, j);
    }
  }

  method Stages(cfg: HybridConfig, vector: seq<RetrievedChunk>, fullDoc: seq<RetrievedChunk>,
                estimate: string -> nat, hash: string -> string) returns (tiered: seq<ScoredChunk>, removed: nat)
    ensures Staged(cfg, estimate, hash, vector, fullDoc, tiered)
    ensures |tiered| + removed == |RetrievedKeys(vector, fullDoc)|
    ensures !cfg.deduplicateByContent ==> removed == 0
  {
    var scored := ScoreAllChunks(cfg, estimate, vector, fullDoc);
    var kept;
    kept, removed := Deduplicated(cfg, scored, hash);
    tiered := AssignPriorityTiers(cfg, kept);
    StagesCompose(cfg, estimate, hash, vector, fullDoc, scored, kept, tiered);
  }

  /** The pipeline, end to end. */
  method BuildHybridContext(cfg: HybridConfig, vector: seq<RetrievedChunk>, fullDoc: seq<RetrievedChunk>,
                            estimate: string -> nat, hash: string -> string) returns (r: HybridResult)
    ensures Reports(r)
    ensures Guaranteed(cfg, estimate, hash, vector, fullDoc, r.scored, r.breakdown)
    ensures exists tiered :: Staged(cfg, estimate, hash, vector, fullDoc, tiered)
                          && Fitted(cfg, tiered, r.scored, r.breakdown)
                          && |tiered| + r.duplicatesRemoved == |RetrievedKeys(vector, fullDoc)|
    ensures cfg.tokenBudget <= 0 ==> |r.scored| + r.duplicatesRemoved == |RetrievedKeys(vector, fullDoc)|
    ensures !cfg.deduplicateByContent ==> r.duplicatesRemoved == 0
  {
    var tiered, removed := Stages(cfg, vector, fullDoc, estimate, hash);
    var selected, breakdown := FitToTokenBudget(cfg, tiered);
    r := Assemble(selected, removed, breakdown);
    SelectionGuarantees(cfg, estimate, hash, vector, fullDoc, tiered, selected, breakdown);
  }
}
