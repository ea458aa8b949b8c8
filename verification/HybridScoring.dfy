/** Scoring every retrieved chunk: merge by key, score, sort. */
module HybridScoring {
  import opened Chunks
  import opened Budgets
  import opened Keyed
  import opened HybridModel

  /** The map of scored chunks that merging by key should build. */
  ghost function CandidateMap(cfg: HybridConfig, estimate: string -> nat,
                              vector: seq<RetrievedChunk>, fullDoc: seq<RetrievedChunk>): map<string, ScoredChunk> {
    map k | k in KeysOf(vector, ChunkKey) + KeysOf(fullDoc, ChunkKey) :: Candidate(cfg, estimate, vector, fullDoc, k)
  }

  lemma OccursWhenKeyed(s: seq<RetrievedChunk>, k: string)
    ensures Occurrences(s, ChunkKey, k) > 0 <==> k in KeysOf(s, ChunkKey)
  {
  }

  /** The recorded source says "both" for exactly the keys both searches returned, if and only if the
      full documents hold no key twice that the vector search did not return. */
  lemma SourceBothExactly(vector: seq<RetrievedChunk>, fullDoc: seq<RetrievedChunk>)
    ensures (forall k :: ExpectedSource(vector, fullDoc, k) == FromBoth
                    <==> k in KeysOf(vector, ChunkKey) && k in KeysOf(fullDoc, ChunkKey))
       <==> (forall k | k !in KeysOf(vector, ChunkKey) :: Occurrences(fullDoc, ChunkKey, k) <= 1)
  {
    forall k ensures Occurrences(fullDoc, ChunkKey, k) > 0 <==> k in KeysOf(fullDoc, ChunkKey) {
      OccursWhenKeyed(fullDoc, k);
    }
  }

  /** A chunk that the full documents hold twice is from "both", though the vector search never saw it. */
  lemma SourceBothUnseen(c: RetrievedChunk)
    ensures ChunkKey(c) !in KeysOf([], ChunkKey) && ExpectedSource([], [c, c], ChunkKey(c)) == FromBoth
  {
    var w := HasKey(ChunkKey, ChunkKey(c));
    assert [] + [c] == [c] && [c] + [c] == [c, c];
    TotalAppend([], c, w);
    TotalAppend([c], c, w);
  }

  /** A full-document chunk changes the candidate of its own key only. */
  lemma OtherKeysUntouched(cfg: HybridConfig, estimate: string -> nat,
                           vector: seq<RetrievedChunk>, fullDoc: seq<RetrievedChunk>, chunk: RetrievedChunk, k: string)
    requires k in KeysOf(vector, ChunkKey) + KeysOf(fullDoc, ChunkKey)
    requires k != ChunkKey(chunk)
    ensures k in KeysOf(vector, ChunkKey) + KeysOf(fullDoc + [chunk], ChunkKey)
    ensures Candidate(cfg, estimate, vector, fullDoc + [chunk], k) == Candidate(cfg, estimate, vector, fullDoc, k)
  {
    assert (fullDoc + [chunk])[..|fullDoc|] == fullDoc;
  }

  /** What a full-document chunk does to the candidate of its own key. */
  lemma OwnKeyRescored(cfg: HybridConfig, estimate: string -> nat,
                       vector: seq<RetrievedChunk>, fullDoc: seq<RetrievedChunk>, chunk: RetrievedChunk)
    ensures ChunkKey(chunk) in KeysOf(fullDoc + [chunk], ChunkKey)
    ensures Candidate(cfg, estimate, vector, fullDoc + [chunk], ChunkKey(chunk)) ==
              if ChunkKey(chunk) in KeysOf(vector, ChunkKey) + KeysOf(fullDoc, ChunkKey)
              then Rescored(cfg, Candidate(cfg, estimate, vector, fullDoc, ChunkKey(chunk))
                                   .(fullDocScore := FullDocScore(chunk), source := FromBoth))
              else Rescored(cfg, NewFullDocChunk(cfg, estimate, chunk))
  {
    assert (fullDoc + [chunk])[..|fullDoc|] == fullDoc;
    OccursWhenKeyed(fullDoc, ChunkKey(chunk));
  }

  function NewFullDocChunk(cfg: HybridConfig, estimate: string -> nat, chunk: RetrievedChunk): ScoredChunk {
    ScoredChunk(chunk, 0.0, PositionScore(chunk.chunkNumber, chunk.totalChunks), FullDocScore(chunk),
                SummaryBoost(cfg, chunk), 0.0, FromFullDoc, "", estimate(chunk.content))
  }

  function NewVectorChunk(cfg: HybridConfig, estimate: string -> nat, chunk: RetrievedChunk): ScoredChunk {
    ScoredChunk(chunk, chunk.score, PositionScore(chunk.chunkNumber, chunk.totalChunks), 0.0,
                SummaryBoost(cfg, chunk), 0.0, FromVector, "", estimate(chunk.content))
  }

  /** A later vector chunk replaces whatever its key had. */
  lemma VectorStep(cfg: HybridConfig, estimate: string -> nat, vector: seq<RetrievedChunk>, chunk: RetrievedChunk)
    ensures CandidateMap(cfg, estimate, vector, [])
              [ChunkKey(chunk) := Rescored(cfg, NewVectorChunk(cfg, estimate, chunk))]
         == CandidateMap(cfg, estimate, vector + [chunk], [])
  {
    assert (vector + [chunk])[..|vector|] == vector;
    forall k | k in KeysOf(vector, ChunkKey) && k != ChunkKey(chunk)
      ensures Candidate(cfg, estimate, vector + [chunk], [], k) == Candidate(cfg, estimate, vector, [], k)
    {
    }
  }

  method ScoreVectorChunks(cfg: HybridConfig, estimate: string -> nat, vector: seq<RetrievedChunk>)
    returns (m: map<string, ScoredChunk>)
    ensures m == CandidateMap(cfg, estimate, vector, [])
  {
    m := map[];
    ghost var merged := [];
    for i := 0 to |vector|
      invariant merged == vector[..i]
      invariant m == CandidateMap(cfg, estimate, merged, [])
    {
      VectorStep(cfg, estimate, merged, vector[i]);
      m := m[ChunkKey(vector[i]) := Rescored(cfg, NewVectorChunk(cfg, estimate, vector[i]))];
      merged := merged + [vector[i]];
    }
    assert merged == vector;
  }

  lemma MergedStep(cfg: HybridConfig, estimate: string -> nat, vector: seq<RetrievedChunk>,
                   fullDoc: seq<RetrievedChunk>, chunk: RetrievedChunk,
                   before: map<string, ScoredChunk>, after: map<string, ScoredChunk>)
    requires before == CandidateMap(cfg, estimate, vector, fullDoc)
    requires var key := ChunkKey(chunk);
             after == before[key :=
               if key in before
               then Rescored(cfg, before[key].(fullDocScore := FullDocScore(chunk), source := FromBoth))
               else Rescored(cfg, NewFullDocChunk(cfg, estimate, chunk))]
    ensures after == CandidateMap(cfg, estimate, vector, fullDoc + [chunk])
  {
    assert (fullDoc + [chunk])[..|fullDoc|] == fullDoc;
    forall k | k in after
      ensures after[k] == Candidate(cfg, estimate, vector, fullDoc + [chunk], k)
    {
      if k == ChunkKey(chunk) {
        OwnKeyRescored(cfg, estimate, vector, fullDoc, chunk);
      } else {
        OtherKeysUntouched(cfg, estimate, vector, fullDoc, chunk, k);
      }
    }
  }

  /** One turn of the full-document loop: update the entry the key has, or add a new one. */
  method MergeFullDocChunk(cfg: HybridConfig, estimate: string -> nat, ghost vector: seq<RetrievedChunk>,
                           ghost fullDoc: seq<RetrievedChunk>, chunk: RetrievedChunk, before: map<string, ScoredChunk>)
    returns (m: map<string, ScoredChunk>)
    requires before == CandidateMap(cfg, estimate, vector, fullDoc)
    ensures m == CandidateMap(cfg, estimate, vector, fullDoc + [chunk])
  {
    var key := ChunkKey(chunk);
    if key in before {
      var existing := before[key];
      existing := existing.(fullDocScore := FullDocScore(chunk), source := FromBoth);
      m := before[key := Rescored(cfg, existing)];
    } else {
      m := before[key := Rescored(cfg, NewFullDocChunk(cfg, estimate, chunk))];
    }
    MergedStep(cfg, estimate, vector, fullDoc, chunk, before, m);
  }

  method MergeFullDocChunks(cfg: HybridConfig, estimate: string -> nat, vector: seq<RetrievedChunk>,
                            fullDoc: seq<RetrievedChunk>, vectorMap: map<string, ScoredChunk>)
    returns (m: map<string, ScoredChunk>)
    requires vectorMap == CandidateMap(cfg, estimate, vector, [])
    ensures m == CandidateMap(cfg, estimate, vector, fullDoc)
  {
    m := vectorMap;
    ghost var merged := [];
    for i := 0 to |fullDoc|
      invariant merged == fullDoc[..i]
      invariant m == CandidateMap(cfg, estimate, vector, merged)
    {
      m := MergeFullDocChunk(cfg, estimate, vector, merged, fullDoc[i], m);
      merged := merged + [fullDoc[i]];
    }
    assert merged == fullDoc;
  }

  /** Listing the map in any order and sorting it gives what scoring should produce. */
  lemma SortedListing(cfg: HybridConfig, estimate: string -> nat, vector: seq<RetrievedChunk>,
                      fullDoc: seq<RetrievedChunk>, listed: seq<ScoredChunk>, scored: seq<ScoredChunk>)
    requires DistinctBy(listed, KeyOf)
    requires KeysOf(listed, KeyOf) == KeysOf(vector, ChunkKey) + KeysOf(fullDoc, ChunkKey)
    requires var m := CandidateMap(cfg, estimate, vector, fullDoc);
             forall c | c in listed :: KeyOf(c) in m && m[KeyOf(c)] == c
    requires multiset(scored) == multiset(listed) && Sorted(scored, HigherFirst)
    ensures ScoredFrom(cfg, estimate, vector, fullDoc, scored)
    ensures |scored| == |KeysOf(vector, ChunkKey) + KeysOf(fullDoc, ChunkKey)|
  {
    DistinctPermutation(listed, scored, KeyOf);
    DistinctSize(scored, KeyOf);
    KeysPermutation(listed, scored, KeyOf);
    forall c | c in scored ensures c in listed {
      assert c in multiset(scored);
    }
  }

  method ScoreAllChunks(cfg: HybridConfig, estimate: string -> nat,
                        vector: seq<RetrievedChunk>, fullDoc: seq<RetrievedChunk>) returns (scored: seq<ScoredChunk>)
    ensures ScoredFrom(cfg, estimate, vector, fullDoc, scored)
    ensures |scored| == |KeysOf(vector, ChunkKey) + KeysOf(fullDoc, ChunkKey)|
  {
    var vectorMap := ScoreVectorChunks(cfg, estimate, vector);
    var m := MergeFullDocChunks(cfg, estimate, vector, fullDoc, vectorMap);
    assert forall k | k in m :: KeyOf(m[k]) == k;
    var listed := ListEntries(m, KeyOf);
    scored := SortBy(listed, HigherFirst);
    SortedListing(cfg, estimate, vector, fullDoc, listed, scored);
  }
}
