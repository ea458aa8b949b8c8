/** Merging vector and full-document chunks with accumulated scores. */
module Merge {
  import opened Text
  import opened Chunks
  import opened Budgets
  import opened Keyed

  function MergeKey(c: RetrievedChunk): string {
    c.documentID + "_" + Decimal(c.chunkNumber)
  }

  /** The key tells the document and the chunk number, whatever characters the document ID has. */
  lemma MergeKeyInjective(a: RetrievedChunk, b: RetrievedChunk)
    ensures MergeKey(a) == MergeKey(b) <==> a.documentID == b.documentID && a.chunkNumber == b.chunkNumber
  {
    var x, y := MergeKey(a), MergeKey(b);
    var m, n := Decimal(a.chunkNumber), Decimal(b.chunkNumber);
    assert x[|a.documentID|] == '_' && y[|b.documentID|] == '_';
    assert x[|a.documentID| + 1..] == m && y[|b.documentID| + 1..] == n;
    assert x[..|a.documentID|] == a.documentID && y[..|b.documentID|] == b.documentID;
    assert forall i | 0 <= i < |m| :: m[i] in m;
    assert forall i | 0 <= i < |n| :: n[i] in n;
    if x == y {
      DecimalInjective(a.chunkNumber, b.chunkNumber);
    }
  }

  function Scaled(x: real, weight: real): real { x * weight }

  /** What one full-document chunk adds: earlier chunks add more. */
  function PositionShare(c: RetrievedChunk, fullDocWeight: real): real {
    Scaled(1.0 - c.chunkNumber as real / 100.0, fullDocWeight)
  }

  function WithShare(existing: RetrievedChunk, c: RetrievedChunk, fullDocWeight: real): RetrievedChunk {
    existing.(score := existing.score + PositionShare(c, fullDocWeight))
  }

  function ShareSum(chunks: seq<RetrievedChunk>, fullDocWeight: real): real {
    if chunks == [] then 0.0
    else ShareSum(chunks[..|chunks| - 1], fullDocWeight) + PositionShare(chunks[|chunks| - 1], fullDocWeight)
  }

  function VectorShare(vector: seq<RetrievedChunk>, k: string, vectorWeight: real): real {
    if k in KeysOf(vector, MergeKey) then Scaled(LastWith(vector, MergeKey, k).score, vectorWeight) else 0.0
  }

  /** The closed form: the surviving chunk, scored with the last vector score for the key plus one
      share for every full-document chunk with that key. */
  function MergedChunk(vector: seq<RetrievedChunk>, fullDoc: seq<RetrievedChunk>,
                       vectorWeight: real, fullDocWeight: real, k: string): RetrievedChunk
    requires k in KeysOf(vector, MergeKey) + KeysOf(fullDoc, MergeKey)
  {
    Survivor(vector, fullDoc, MergeKey, k)
      .(score := VectorShare(vector, k, vectorWeight) + ShareSum(AllWith(fullDoc, MergeKey, k), fullDocWeight))
  }

  ghost function MergedMap(vector: seq<RetrievedChunk>, fullDoc: seq<RetrievedChunk>,
                           vectorWeight: real, fullDocWeight: real): map<string, RetrievedChunk> {
    map k | k in KeysOf(vector, MergeKey) + KeysOf(fullDoc, MergeKey) ::
      MergedChunk(vector, fullDoc, vectorWeight, fullDocWeight, k)
  }

  lemma {:induction false} NoneWith(s: seq<RetrievedChunk>, k: string)
    ensures AllWith(s, MergeKey, k) == [] <==> k !in KeysOf(s, MergeKey)
  {
    if s != [] {
      NoneWith(s[..|s| - 1], k);
    }
  }

  lemma VectorStep(vector: seq<RetrievedChunk>, c: RetrievedChunk, vectorWeight: real, fullDocWeight: real)
    ensures MergedMap(vector + [c], [], vectorWeight, fullDocWeight)
         == MergedMap(vector, [], vectorWeight, fullDocWeight)
              [MergeKey(c) := c.(score := Scaled(c.score, vectorWeight))]
  {
    assert (vector + [c])[..|vector|] == vector;
    forall k | k in KeysOf(vector + [c], MergeKey)
      ensures MergedChunk(vector + [c], [], vectorWeight, fullDocWeight, k)
           == if k == MergeKey(c) then c.(score := Scaled(c.score, vectorWeight))
              else MergedChunk(vector, [], vectorWeight, fullDocWeight, k)
    {
    }
  }

  lemma SharesAppend(fullDoc: seq<RetrievedChunk>, c: RetrievedChunk, fullDocWeight: real, k: string)
    ensures ShareSum(AllWith(fullDoc + [c], MergeKey, k), fullDocWeight)
         == ShareSum(AllWith(fullDoc, MergeKey, k), fullDocWeight)
            + if k == MergeKey(c) then PositionShare(c, fullDocWeight) else 0.0
  {
    assert (fullDoc + [c])[..|fullDoc|] == fullDoc;
    var shares := AllWith(fullDoc, MergeKey, k);
    assert (shares + [c])[..|shares|] == shares;
    assert AllWith(fullDoc + [c], MergeKey, k) == if k == MergeKey(c) then shares + [c] else shares;
  }

  /** A full-document chunk adds its share to its own key's entry, or makes one, and touches no other. */
  lemma FullDocKey(vector: seq<RetrievedChunk>, fullDoc: seq<RetrievedChunk>, c: RetrievedChunk,
                   vectorWeight: real, fullDocWeight: real, k: string)
    requires k in KeysOf(vector, MergeKey) + KeysOf(fullDoc, MergeKey)
    ensures k in KeysOf(fullDoc + [c], MergeKey) + KeysOf(vector, MergeKey)
    ensures MergedChunk(vector, fullDoc + [c], vectorWeight, fullDocWeight, k)
         == if k == MergeKey(c)
            then WithShare(MergedChunk(vector, fullDoc, vectorWeight, fullDocWeight, k), c, fullDocWeight)
            else MergedChunk(vector, fullDoc, vectorWeight, fullDocWeight, k)
  {
    assert (fullDoc + [c])[..|fullDoc|] == fullDoc;
    SharesAppend(fullDoc, c, fullDocWeight, k);
  }

  lemma FullDocNewKey(vector: seq<RetrievedChunk>, fullDoc: seq<RetrievedChunk>, c: RetrievedChunk,
                      vectorWeight: real, fullDocWeight: real)
    requires MergeKey(c) !in KeysOf(vector, MergeKey) + KeysOf(fullDoc, MergeKey)
    ensures MergeKey(c) in KeysOf(fullDoc + [c], MergeKey)
    ensures MergedChunk(vector, fullDoc + [c], vectorWeight, fullDocWeight, MergeKey(c))
         == c.(score := PositionShare(c, fullDocWeight))
  {
    assert (fullDoc + [c])[..|fullDoc|] == fullDoc;
    NoneWith(fullDoc, MergeKey(c));
    SharesAppend(fullDoc, c, fullDocWeight, MergeKey(c));
  }

  /** The map after one more full-document chunk. */
  function Absorbed(m: map<string, RetrievedChunk>, c: RetrievedChunk, fullDocWeight: real)
    : map<string, RetrievedChunk>
  {
    m[MergeKey(c) := if MergeKey(c) in m then WithShare(m[MergeKey(c)], c, fullDocWeight)
                     else c.(score := PositionShare(c, fullDocWeight))]
  }

  lemma AbsorbedAt(vector: seq<RetrievedChunk>, fullDoc: seq<RetrievedChunk>, c: RetrievedChunk,
                   vectorWeight: real, fullDocWeight: real, m: map<string, RetrievedChunk>, k: string)
    requires m == MergedMap(vector, fullDoc, vectorWeight, fullDocWeight)
    requires k in m || k == MergeKey(c)
    ensures k in KeysOf(vector, MergeKey) + KeysOf(fullDoc + [c], MergeKey)
    ensures MergedChunk(vector, fullDoc + [c], vectorWeight, fullDocWeight, k) == Absorbed(m, c, fullDocWeight)[k]
  {
    if k in m {
      FullDocKey(vector, fullDoc, c, vectorWeight, fullDocWeight, k);
    } else {
      FullDocNewKey(vector, fullDoc, c, vectorWeight, fullDocWeight);
    }
  }

  lemma FullDocStep(vector: seq<RetrievedChunk>, fullDoc: seq<RetrievedChunk>, c: RetrievedChunk,
                    vectorWeight: real, fullDocWeight: real)
    ensures MergedMap(vector, fullDoc + [c], vectorWeight, fullDocWeight)
         == Absorbed(MergedMap(vector, fullDoc, vectorWeight, fullDocWeight), c, fullDocWeight)
  {
    var before, after := MergedMap(vector, fullDoc, vectorWeight, fullDocWeight),
                         MergedMap(vector, fullDoc + [c], vectorWeight, fullDocWeight);
    forall k | k in after ensures after[k] == Absorbed(before, c, fullDocWeight)[k] {
      AbsorbedAt(vector, fullDoc, c, vectorWeight, fullDocWeight, before, k);
    }
  }

  method MergeVector(vector: seq<RetrievedChunk>, vectorWeight: real, ghost fullDocWeight: real)
    returns (m: map<string, RetrievedChunk>)
    ensures m == MergedMap(vector, [], vectorWeight, fullDocWeight)
  {
    m := map[];
    ghost var merged := [];
    for i := 0 to |vector|
      invariant merged == vector[..i]
      invariant m == MergedMap(merged, [], vectorWeight, fullDocWeight)
    {
      var chunk := vector[i];
      VectorStep(merged, chunk, vectorWeight, fullDocWeight);
      m := m[MergeKey(chunk) := chunk.(score := Scaled(chunk.score, vectorWeight))];
      merged := merged + [chunk];
    }
    assert merged == vector;
  }

  method MergeFullDocChunk(m: map<string, RetrievedChunk>, chunk: RetrievedChunk, fullDocWeight: real,
                           ghost vector: seq<RetrievedChunk>, ghost fullDoc: seq<RetrievedChunk>,
                           ghost vectorWeight: real)
    returns (after: map<string, RetrievedChunk>)
    requires m == MergedMap(vector, fullDoc, vectorWeight, fullDocWeight)
    ensures after == MergedMap(vector, fullDoc + [chunk], vectorWeight, fullDocWeight)
  {
    FullDocStep(vector, fullDoc, chunk, vectorWeight, fullDocWeight);
    var key := MergeKey(chunk);
    if key in m {
      after := m[key := WithShare(m[key], chunk, fullDocWeight)];
    } else {
      after := m[key := chunk.(score := PositionShare(chunk, fullDocWeight))];
    }
    assert after == Absorbed(m, chunk, fullDocWeight);
  }

  method MergeAll(vector: seq<RetrievedChunk>, fullDoc: seq<RetrievedChunk>, vectorWeight: real, fullDocWeight: real)
    returns (m: map<string, RetrievedChunk>)
    ensures m == MergedMap(vector, fullDoc, vectorWeight, fullDocWeight)
  {
    m := MergeVector(vector, vectorWeight, fullDocWeight);
    ghost var merged := [];
    for i := 0 to |fullDoc|
      invariant merged == fullDoc[..i]
      invariant m == MergedMap(vector, merged, vectorWeight, fullDocWeight)
    {
      m := MergeFullDocChunk(m, fullDoc[i], fullDocWeight, vector, merged, vectorWeight);
      merged := merged + [fullDoc[i]];
    }
    assert merged == fullDoc;
  }

  predicate HigherScore(a: RetrievedChunk, b: RetrievedChunk) { a.score >= b.score }

  /** One chunk a key, best score first, every score in closed form. */
  ghost predicate Ranked(vector: seq<RetrievedChunk>, fullDoc: seq<RetrievedChunk>,
                         vectorWeight: real, fullDocWeight: real, ranked: seq<RetrievedChunk>) {
    var m := MergedMap(vector, fullDoc, vectorWeight, fullDocWeight);
    && Sorted(ranked, HigherScore)
    && DistinctBy(ranked, MergeKey)
    && KeysOf(ranked, MergeKey) == m.Keys
    && forall i | 0 <= i < |ranked| :: MergeKey(ranked[i]) in m && m[MergeKey(ranked[i])] == ranked[i]
  }

  method MergeAndRankChunks(vector: seq<RetrievedChunk>, fullDoc: seq<RetrievedChunk>,
                            vectorWeight: real, fullDocWeight: real) returns (ranked: seq<RetrievedChunk>)
    ensures Ranked(vector, fullDoc, vectorWeight, fullDocWeight, ranked)
    ensures forall i, j | 0 <= i < j < |ranked| :: ranked[i].score >= ranked[j].score
  {
    var m := MergeAll(vector, fullDoc, vectorWeight, fullDocWeight);
    assert forall k | k in m :: MergeKey(m[k]) == k;
    var listed := ListEntries(m, MergeKey);
    ranked := SortBy(listed, HigherScore);
    DistinctPermutation(listed, ranked, MergeKey);
    KeysPermutation(listed, ranked, MergeKey);
    forall i | 0 <= i < |ranked| ensures ranked[i] in listed {
      assert ranked[i] in multiset(ranked);
    }
  }

  lemma {:induction false} AllWithMembers(s: seq<RetrievedChunk>, k: string)
    ensures forall i | 0 <= i < |AllWith(s, MergeKey, k)| :: MergeKey(AllWith(s, MergeKey, k)[i]) == k
  {
    if s != [] {
      AllWithMembers(s[..|s| - 1], k);
    }
  }

  lemma {:induction false} EqualShares(chunks: seq<RetrievedChunk>, share: real, fullDocWeight: real)
    requires forall i | 0 <= i < |chunks| :: PositionShare(chunks[i], fullDocWeight) == share
    ensures ShareSum(chunks, fullDocWeight) == Scaled(|chunks| as real, share)
  {
    if chunks != [] {
      EqualShares(chunks[..|chunks| - 1], share, fullDocWeight);
    }
  }

  /** Since the key is injective all shares of a key are equal: what the full-document chunks add is
      their number times the share of the chunk's own position. */
  lemma SharesAreEqual(fullDoc: seq<RetrievedChunk>, c: RetrievedChunk, fullDocWeight: real)
    ensures var same := AllWith(fullDoc, MergeKey, MergeKey(c));
            ShareSum(same, fullDocWeight) == Scaled(|same| as real, PositionShare(c, fullDocWeight))
  {
    var same := AllWith(fullDoc, MergeKey, MergeKey(c));
    AllWithMembers(fullDoc, MergeKey(c));
    forall i | 0 <= i < |same| ensures PositionShare(same[i], fullDocWeight) == PositionShare(c, fullDocWeight) {
      MergeKeyInjective(same[i], c);
    }
    EqualShares(same, PositionShare(c, fullDocWeight), fullDocWeight);
  }

  /** A full-document chunk at number 0 adds the whole weight, one at 100 nothing, and each step on the way
      costs a hundredth of the weight. */
  lemma ShareEffect(c: RetrievedChunk, n: int, fullDocWeight: real)
    ensures PositionShare(c.(chunkNumber := 0), fullDocWeight) == fullDocWeight
    ensures PositionShare(c.(chunkNumber := 100), fullDocWeight) == 0.0
    ensures PositionShare(c.(chunkNumber := n), fullDocWeight) - PositionShare(c.(chunkNumber := n + 1), fullDocWeight)
         == fullDocWeight / 100.0
  {
    assert (n + 1) as real / 100.0 == n as real / 100.0 + 1.0 / 100.0;
    var x := 1.0 - n as real / 100.0;
    assert Scaled(x, fullDocWeight) - Scaled(x - 1.0 / 100.0, fullDocWeight) == fullDocWeight / 100.0;
  }

  /** The full-document part of a score: one share of the position for every chunk of the key. */
  function SharesOf(fullDoc: seq<RetrievedChunk>, c: RetrievedChunk, fullDocWeight: real): real {
    Scaled(Occurrences(fullDoc, MergeKey, MergeKey(c)) as real, PositionShare(c, fullDocWeight))
  }

  /** Scaling is by the weight: nothing at 0, the score itself at 1, and in proportion. */
  lemma ScaledMeans(x: real, a: real, b: real)
    ensures Scaled(x, 0.0) == 0.0 && Scaled(x, 1.0) == x
    ensures Scaled(x, a + b) == Scaled(x, a) + Scaled(x, b) && Scaled(a + b, x) == Scaled(a, x) + Scaled(b, x)
  {
  }

  /** A key of the vector search keeps the last chunk it returned there, but for the score: its own times the
      weight, and the shares of its position. */
  lemma MergedFromVector(vector: seq<RetrievedChunk>, fullDoc: seq<RetrievedChunk>,
                         vectorWeight: real, fullDocWeight: real, k: string, i: nat)
    requires LastAt(vector, MergeKey, k, i)
    ensures k in KeysOf(vector, MergeKey)
    ensures MergedChunk(vector, fullDoc, vectorWeight, fullDocWeight, k)
         == vector[i].(score := Scaled(vector[i].score, vectorWeight) + SharesOf(fullDoc, vector[i], fullDocWeight))
  {
    LastWithIsLast(vector, MergeKey, k, i);
    AllWithMeans(fullDoc, MergeKey, k);
    SharesAreEqual(fullDoc, vector[i], fullDocWeight);
  }

  /** Any other key keeps the first chunk of the full documents, scored with the shares alone. */
  lemma MergedFromFullDoc(vector: seq<RetrievedChunk>, fullDoc: seq<RetrievedChunk>,
                          vectorWeight: real, fullDocWeight: real, k: string, i: nat)
    requires k !in KeysOf(vector, MergeKey) && FirstAt(fullDoc, MergeKey, k, i)
    ensures k in KeysOf(fullDoc, MergeKey)
    ensures MergedChunk(vector, fullDoc, vectorWeight, fullDocWeight, k)
         == fullDoc[i].(score := SharesOf(fullDoc, fullDoc[i], fullDocWeight))
  {
    FirstWithIsFirst(fullDoc, MergeKey, k, i);
    AllWithMeans(fullDoc, MergeKey, k);
    SharesAreEqual(fullDoc, fullDoc[i], fullDocWeight);
  }
}
