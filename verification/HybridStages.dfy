/** The two stages between scoring and allocation: content deduplication and tier assignment. */
module HybridStages {
  import opened Budgets
  import opened Keyed
  import opened HybridModel

  // ---- deduplication ----

  function ContentHash(hash: string -> string): ScoredChunk -> string {
    (c: ScoredChunk) => hash(c.chunk.content)
  }

  /** The subsequence of first occurrences by hash. */
  function FirstOccurrences(chunks: seq<ScoredChunk>, h: ScoredChunk -> string): seq<ScoredChunk> {
    if chunks == [] then []
    else
      var kept, c := FirstOccurrences(chunks[..|chunks| - 1], h), chunks[|chunks| - 1];
      if h(c) in KeysOf(kept, h) then kept else kept + [c]
  }

  /** seen maps every hash met so far to the place of its representative. */
  ghost predicate Indexes(seen: map<string, nat>, kept: seq<ScoredChunk>, h: ScoredChunk -> string) {
    && (forall k | k in seen :: seen[k] < |kept| && h(kept[seen[k]]) == k)
    && (forall j | 0 <= j < |kept| :: h(kept[j]) in seen && seen[h(kept[j])] == j)
  }

  /** Some kept chunk has this hash and at least this score. */
  ghost predicate Represented(kept: seq<ScoredChunk>, h: ScoredChunk -> string, hash: string, score: real) {
    exists j :: 0 <= j < |kept| && h(kept[j]) == hash && kept[j].combinedScore >= score
  }

  /** The kept chunks come from the input, and every input chunk is represented by one of them. */
  ghost predicate Represents(kept: seq<ScoredChunk>, chunks: seq<ScoredChunk>, h: ScoredChunk -> string) {
    && (forall j | 0 <= j < |kept| :: kept[j] in chunks)
    && (forall i | 0 <= i < |chunks| :: Represented(kept, h, h(chunks[i]), chunks[i].combinedScore))
  }

  /** The first of the best scoring chunks with this hash. */
  function FirstBest(chunks: seq<ScoredChunk>, h: ScoredChunk -> string, k: string): ScoredChunk
    requires k in KeysOf(chunks, h)
  {
    var init, c := chunks[..|chunks| - 1], chunks[|chunks| - 1];
    if k !in KeysOf(init, h) then c
    else if h(c) == k && c.combinedScore > FirstBest(init, h, k).combinedScore then c
    else FirstBest(init, h, k)
  }

  /** best stands at i, has this hash, and scores more than all before it and no less than all after it
      with the hash. */
  ghost predicate BestAt(chunks: seq<ScoredChunk>, h: ScoredChunk -> string, k: string, i: nat, best: ScoredChunk) {
    && i < |chunks| && chunks[i] == best && h(best) == k
    && (forall j | 0 <= j < i && h(chunks[j]) == k :: chunks[j].combinedScore < best.combinedScore)
    && (forall j | i < j < |chunks| && h(chunks[j]) == k :: chunks[j].combinedScore <= best.combinedScore)
  }

  lemma OnlyIsBest(chunks: seq<ScoredChunk>, c: ScoredChunk, h: ScoredChunk -> string)
    requires h(c) !in KeysOf(chunks, h)
    ensures BestAt(chunks + [c], h, h(c), |chunks|, c)
  {
    KeysOfMember(chunks, h, h(c));
  }

  /** FirstBest means what it says. */
  lemma {:induction false} FirstBestIsBest(chunks: seq<ScoredChunk>, h: ScoredChunk -> string, k: string)
    requires k in KeysOf(chunks, h)
    ensures exists i: nat :: BestAt(chunks, h, k, i, FirstBest(chunks, h, k))
  {
    var init, c := chunks[..|chunks| - 1], chunks[|chunks| - 1];
    assert chunks == init + [c];
    if k in KeysOf(init, h) {
      FirstBestIsBest(init, h, k);
      var was := FirstBest(init, h, k);
      var i: nat :| BestAt(init, h, k, i, was);
      assert BestAt(chunks, h, k, if h(c) == k && c.combinedScore > was.combinedScore then |init| else i,
                    FirstBest(chunks, h, k));
    } else {
      OnlyIsBest(init, c, h);
      assert BestAt(chunks, h, k, |init|, FirstBest(chunks, h, k));
    }
  }

  /** In the order in which the hashes first occur, the first of the best for each. */
  ghost predicate Picked(kept: seq<ScoredChunk>, chunks: seq<ScoredChunk>, h: ScoredChunk -> string) {
    && KeysOf(FirstOccurrences(chunks, h), h) == KeysOf(chunks, h)
    && |kept| == |FirstOccurrences(chunks, h)|
    && forall j | 0 <= j < |kept| :: PickedAt(kept[j], FirstOccurrences(chunks, h)[j], chunks, h)
  }

  ghost predicate PickedAt(c: ScoredChunk, first: ScoredChunk, chunks: seq<ScoredChunk>, h: ScoredChunk -> string) {
    h(c) == h(first) && h(c) in KeysOf(chunks, h) && c == FirstBest(chunks, h, h(c))
  }

  lemma PickedNew(kept: seq<ScoredChunk>, chunks: seq<ScoredChunk>, c: ScoredChunk, h: ScoredChunk -> string)
    requires Picked(kept, chunks, h) && h(c) !in KeysOf(chunks, h)
    ensures Picked(kept + [c], chunks + [c], h)
  {
    var first := FirstOccurrences(chunks, h);
    FirstOccurrencesAppend(chunks, c, h);
    forall j | 0 <= j < |kept| + 1 ensures PickedAt((kept + [c])[j], (first + [c])[j], chunks + [c], h) {
      if j < |kept| {
        assert PickedAt(kept[j], first[j], chunks, h);
      }
    }
  }

  lemma PickedAgain(kept: seq<ScoredChunk>, chunks: seq<ScoredChunk>, c: ScoredChunk, p: nat, h: ScoredChunk -> string)
    requires Picked(kept, chunks, h) && DistinctBy(kept, h)
    requires p < |kept| && h(kept[p]) == h(c)
    ensures Picked(if c.combinedScore > kept[p].combinedScore then kept[p := c] else kept, chunks + [c], h)
  {
    var first := FirstOccurrences(chunks, h);
    var after := if c.combinedScore > kept[p].combinedScore then kept[p := c] else kept;
    assert PickedAt(kept[p], first[p], chunks, h);
    FirstOccurrencesAppend(chunks, c, h);
    forall j | 0 <= j < |kept| ensures PickedAt(after[j], first[j], chunks + [c], h) {
      assert PickedAt(kept[j], first[j], chunks, h);
    }
  }

  lemma IndexesKeys(seen: map<string, nat>, kept: seq<ScoredChunk>, h: ScoredChunk -> string, k: string)
    requires Indexes(seen, kept, h)
    ensures k in seen <==> k in KeysOf(kept, h)
  {
    KeysOfMember(kept, h, k);
  }

  lemma IndexesAppend(seen: map<string, nat>, kept: seq<ScoredChunk>, c: ScoredChunk, h: ScoredChunk -> string)
    requires Indexes(seen, kept, h) && h(c) !in seen
    ensures Indexes(seen[h(c) := |kept|], kept + [c], h)
  {
  }

  lemma IndexesReplace(seen: map<string, nat>, kept: seq<ScoredChunk>, c: ScoredChunk, h: ScoredChunk -> string)
    requires Indexes(seen, kept, h) && h(c) in seen
    ensures Indexes(seen, kept[seen[h(c)] := c], h)
  {
  }

  lemma RepresentsAppend(kept: seq<ScoredChunk>, chunks: seq<ScoredChunk>, c: ScoredChunk, h: ScoredChunk -> string)
    requires Represents(kept, chunks, h)
    ensures Represents(kept + [c], chunks + [c], h)
  {
    var after := kept + [c];
    forall i | 0 <= i < |chunks| + 1
      ensures Represented(after, h, h((chunks + [c])[i]), (chunks + [c])[i].combinedScore)
    {
      if i < |chunks| {
        var j :| 0 <= j < |kept| && h(kept[j]) == h(chunks[i]) && kept[j].combinedScore >= chunks[i].combinedScore;
        assert after[j] == kept[j];
      } else {
        assert after[|kept|] == c;
      }
    }
  }

  lemma RepresentsReplace(kept: seq<ScoredChunk>, chunks: seq<ScoredChunk>, c: ScoredChunk, p: nat,
                          h: ScoredChunk -> string)
    requires Represents(kept, chunks, h)
    requires p < |kept| && h(kept[p]) == h(c)
    ensures c.combinedScore > kept[p].combinedScore ==> Represents(kept[p := c], chunks + [c], h)
    ensures c.combinedScore <= kept[p].combinedScore ==> Represents(kept, chunks + [c], h)
  {
    var after := if c.combinedScore > kept[p].combinedScore then kept[p := c] else kept;
    forall i | 0 <= i < |chunks| + 1
      ensures Represented(after, h, h((chunks + [c])[i]), (chunks + [c])[i].combinedScore)
    {
      if i < |chunks| {
        var j :| 0 <= j < |kept| && h(kept[j]) == h(chunks[i]) && kept[j].combinedScore >= chunks[i].combinedScore;
        assert h(after[j]) == h(kept[j]) && after[j].combinedScore >= kept[j].combinedScore;
      } else {
        assert h(after[p]) == h(c);
      }
    }
  }

  /** Where the loop stands after the chunks met. */
  ghost predicate Deduplicating(met: seq<ScoredChunk>, h: ScoredChunk -> string,
                                seen: map<string, nat>, kept: seq<ScoredChunk>, removed: nat) {
    && Indexes(seen, kept, h)
    && Represents(kept, met, h)
    && Picked(kept, met, h)
    && |kept| + removed == |met|
    && (Sorted(met, HigherFirst) ==> kept == FirstOccurrences(met, h))
  }

  lemma FirstOccurrencesAppend(met: seq<ScoredChunk>, c: ScoredChunk, h: ScoredChunk -> string)
    ensures FirstOccurrences(met + [c], h)
         == FirstOccurrences(met, h) + if h(c) in KeysOf(FirstOccurrences(met, h), h) then [] else [c]
    ensures Sorted(met + [c], HigherFirst) ==> Sorted(met, HigherFirst) && forall x | x in met :: HigherFirst(x, c)
  {
    var all := met + [c];
    assert all[..|met|] == met;
    if Sorted(all, HigherFirst) {
      forall i, j | 0 <= i < j < |met| ensures HigherFirst(met[i], met[j]) {
        assert HigherFirst(all[i], all[j]);
      }
      forall x | x in met ensures HigherFirst(x, c) {
        var i :| 0 <= i < |met| && met[i] == x;
        assert HigherFirst(all[i], all[|met|]);
      }
    }
  }

  /** The hashes seen are those of the chunks met. */
  lemma SeenAreMet(seen: map<string, nat>, kept: seq<ScoredChunk>, met: seq<ScoredChunk>,
                   h: ScoredChunk -> string, k: string)
    requires Indexes(seen, kept, h) && Picked(kept, met, h)
    ensures k in seen <==> k in KeysOf(met, h)
  {
    var first := FirstOccurrences(met, h);
    IndexesKeys(seen, kept, h, k);
    KeysOfMember(kept, h, k);
    KeysOfMember(first, h, k);
    forall j | 0 <= j < |kept| ensures h(kept[j]) == h(first[j]) {
      assert PickedAt(kept[j], first[j], met, h);
    }
  }

  /** A chunk whose hash was met before: the better one stays. */
  method MeetDuplicate(chunk: ScoredChunk, seen: map<string, nat>, kept: seq<ScoredChunk>, removed: nat,
                       ghost met: seq<ScoredChunk>, h: ScoredChunk -> string) returns (kept': seq<ScoredChunk>)
    requires Deduplicating(met, h, seen, kept, removed) && h(chunk) in seen
    ensures Deduplicating(met + [chunk], h, seen, kept', removed + 1)
  {
    var existing := seen[h(chunk)];
    assert kept[existing] in met;
    IndexesKeys(seen, kept, h, h(chunk));
    FirstOccurrencesAppend(met, chunk, h);
    RepresentsReplace(kept, met, chunk, existing, h);
    PickedAgain(kept, met, chunk, existing, h);
    IndexesReplace(seen, kept, chunk, h);
    kept' := kept;
    if chunk.combinedScore > kept[existing].combinedScore {
      kept' := kept[existing := chunk];
    }
  }

  lemma MeetNew(chunk: ScoredChunk, seen: map<string, nat>, kept: seq<ScoredChunk>, removed: nat,
                met: seq<ScoredChunk>, h: ScoredChunk -> string)
    requires Deduplicating(met, h, seen, kept, removed) && h(chunk) !in seen
    ensures Deduplicating(met + [chunk], h, seen[h(chunk) := |kept|], kept + [chunk], removed)
  {
    IndexesKeys(seen, kept, h, h(chunk));
    FirstOccurrencesAppend(met, chunk, h);
    RepresentsAppend(kept, met, chunk, h);
    SeenAreMet(seen, kept, met, h, h(chunk));
    PickedNew(kept, met, chunk, h);
    IndexesAppend(seen, kept, chunk, h);
  }

  method MeetOne(chunk: ScoredChunk, seen: map<string, nat>, kept: seq<ScoredChunk>, removed: nat,
                 ghost met: seq<ScoredChunk>, h: ScoredChunk -> string)
    returns (seen': map<string, nat>, kept': seq<ScoredChunk>, removed': nat)
    requires Deduplicating(met, h, seen, kept, removed)
    ensures Deduplicating(met + [chunk], h, seen', kept', removed')
  {
    if h(chunk) in seen {
      var better := MeetDuplicate(chunk, seen, kept, removed, met, h);
      return seen, better, removed + 1;
    }
    MeetNew(chunk, seen, kept, removed, met, h);
    return seen[h(chunk) := |kept|], kept + [chunk], removed;
  }

  lemma PrefixGrows(chunks: seq<ScoredChunk>, i: nat)
    requires i <= |chunks|
    ensures i < |chunks| ==> chunks[..i + 1] == chunks[..i] + [chunks[i]]
    ensures i == |chunks| ==> chunks[..i] == chunks
  {
  }

  method MeetNext(chunks: seq<ScoredChunk>, i: nat, h: ScoredChunk -> string,
                  seen: map<string, nat>, kept: seq<ScoredChunk>, removed: nat)
    returns (seen': map<string, nat>, kept': seq<ScoredChunk>, removed': nat)
    requires i < |chunks| && Deduplicating(chunks[..i], h, seen, kept, removed)
    ensures Deduplicating(chunks[..i + 1], h, seen', kept', removed')
  {
    PrefixGrows(chunks, i);
    seen', kept', removed' := MeetOne(chunks[i], seen, kept, removed, chunks[..i], h);
  }

  lemma NothingMet(chunks: seq<ScoredChunk>, h: ScoredChunk -> string)
    ensures Deduplicating(chunks[..0], h, map[], [], 0)
  {
    assert chunks[..0] == [];
  }

  method MeetAll(chunks: seq<ScoredChunk>, h: ScoredChunk -> string)
    returns (seen: map<string, nat>, kept: seq<ScoredChunk>, removed: nat)
    ensures Deduplicating(chunks, h, seen, kept, removed)
  {
    seen, kept, removed := map[], [], 0;
    NothingMet(chunks, h);
    for i := 0 to |chunks|
      invariant Deduplicating(chunks[..i], h, seen, kept, removed)
    {
      seen, kept, removed := MeetNext(chunks, i, h, seen, kept, removed);
    }
    PrefixGrows(chunks, |chunks|);
  }

  /** For any input, in the order in which the hashes first occur, the first of the best scoring chunks of
      each; and every chunk is either kept or counted. On sorted input nothing is ever replaced: the kept chunks are
      the first occurrences. */
  method DeduplicateByContent(chunks: seq<ScoredChunk>, hash: string -> string)
    returns (kept: seq<ScoredChunk>, removed: nat)
    ensures DistinctBy(kept, ContentHash(hash))
    ensures Represents(kept, chunks, ContentHash(hash)) && Picked(kept, chunks, ContentHash(hash))
    ensures |kept| + removed == |chunks|
    ensures Sorted(chunks, HigherFirst) ==> kept == FirstOccurrences(chunks, ContentHash(hash))
  {
    var seen;
    seen, kept, removed := MeetAll(chunks, ContentHash(hash));
  }

  /** Dropping later occurrences keeps the order and the keys' distinctness. */
  lemma {:induction false} FirstOccurrencesThin(chunks: seq<ScoredChunk>, h: ScoredChunk -> string, k: string)
    ensures Occurrences(FirstOccurrences(chunks, h), KeyOf, k) <= Occurrences(chunks, KeyOf, k)
    ensures forall c | c in FirstOccurrences(chunks, h) :: c in chunks
    ensures Sorted(chunks, HigherFirst) ==> Sorted(FirstOccurrences(chunks, h), HigherFirst)
  {
    if chunks != [] {
      var init := chunks[..|chunks| - 1];
      FirstOccurrencesThin(init, h, k);
      assert forall c | c in init :: c in chunks;
      if Sorted(chunks, HigherFirst) {
        assert forall i | 0 <= i < |init| :: HigherFirst(init[i], chunks[|chunks| - 1]);
        var kept := FirstOccurrences(init, h);
        forall j | 0 <= j < |kept| ensures HigherFirst(kept[j], chunks[|chunks| - 1]) {
          assert kept[j] in init;
        }
        assert Sorted(kept, HigherFirst);
      }
    }
  }

  lemma FirstOccurrencesDistinct(chunks: seq<ScoredChunk>, h: ScoredChunk -> string)
    requires DistinctBy(chunks, KeyOf)
    ensures DistinctBy(FirstOccurrences(chunks, h), KeyOf)
  {
    DistinctByCount(chunks, KeyOf);
    DistinctByCount(FirstOccurrences(chunks, h), KeyOf);
    forall k ensures Occurrences(FirstOccurrences(chunks, h), KeyOf, k) <= 1 {
      assert Occurrences(chunks, KeyOf, k) <= 1;
      FirstOccurrencesThin(chunks, h, k);
    }
  }

  // ---- priority tiers ----

  predicate HigherBar(a: PriorityTier, b: PriorityTier) { a.minScore >= b.minScore }

  /** name is a tier a score belongs to: one with the highest bar the score clears, or, when it
      clears none, one with the lowest bar. Without tiers everything is "default". */
  ghost predicate BelongsTo(tiers: seq<PriorityTier>, score: real, name: string) {
    if tiers == [] then name == "default"
    else exists t :: t in tiers && t.name == name && BestTier(tiers, score, t)
  }

  ghost predicate BestTier(tiers: seq<PriorityTier>, score: real, t: PriorityTier) {
    if score >= t.minScore
    then forall u | u in tiers && score >= u.minScore :: u.minScore <= t.minScore
    else forall u | u in tiers :: score < u.minScore && t.minScore <= u.minScore
  }

  method TierFor(sortedTiers: seq<PriorityTier>, score: real) returns (t: PriorityTier)
    requires sortedTiers != [] && Sorted(sortedTiers, HigherBar)
    ensures t in sortedTiers && BestTier(sortedTiers, score, t)
  {
    for i := 0 to |sortedTiers|
      invariant forall j | 0 <= j < i :: score < sortedTiers[j].minScore
    {
      if score >= sortedTiers[i].minScore {
        return sortedTiers[i];
      }
    }
    return sortedTiers[|sortedTiers| - 1];
  }

  method AssignPriorityTiers(cfg: HybridConfig, chunks: seq<ScoredChunk>) returns (tiered: seq<ScoredChunk>)
    ensures |tiered| == |chunks|
    ensures forall i | 0 <= i < |chunks| ::
              && tiered[i] == chunks[i].(priorityTier := tiered[i].priorityTier)
              && BelongsTo(cfg.priorityTiers, chunks[i].combinedScore, tiered[i].priorityTier)
  {
    tiered := chunks;
    if |cfg.priorityTiers| == 0 {
      for i := 0 to |chunks|
        invariant |tiered| == |chunks|
        invariant forall j | 0 <= j < |chunks| ::
                    tiered[j] == if j < i then chunks[j].(priorityTier := "default") else chunks[j]
      {
        tiered := tiered[i := tiered[i].(priorityTier := "default")];
      }
      return;
    }
    var sortedTiers := SortBy(cfg.priorityTiers, HigherBar);
    assert forall t :: t in sortedTiers <==> t in multiset(sortedTiers);
    assert forall t :: t in cfg.priorityTiers <==> t in multiset(cfg.priorityTiers);
    assert |sortedTiers| == |multiset(sortedTiers)| > 0;
    for i := 0 to |chunks|
      invariant |tiered| == |chunks|
      invariant forall j | i <= j < |chunks| :: tiered[j] == chunks[j]
      invariant forall j | 0 <= j < i ::
                  && tiered[j] == chunks[j].(priorityTier := tiered[j].priorityTier)
                  && BelongsTo(cfg.priorityTiers, chunks[j].combinedScore, tiered[j].priorityTier)
    {
      var tier := TierFor(sortedTiers, chunks[i].combinedScore);
      assert tier in cfg.priorityTiers && BestTier(cfg.priorityTiers, chunks[i].combinedScore, tier);
      tiered := tiered[i := tiered[i].(priorityTier := tier.name)];
    }
  }

  /** A better score never lands in a tier with a lower bar. */
  lemma TiersAreMonotone(tiers: seq<PriorityTier>, low: real, high: real, t: PriorityTier, u: PriorityTier)
    requires low <= high
    requires t in tiers && u in tiers
    requires BestTier(tiers, low, t) && BestTier(tiers, high, u)
    ensures t.minScore <= u.minScore
  {
  }
}
