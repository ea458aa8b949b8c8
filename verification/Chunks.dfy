/** The retrieved chunk shared by every retrieval service. */
module Chunks {
  import opened Text
  import opened Budgets

  /** The metadata values the context code looks at; anything else is MetaOther. */
  datatype MetaValue = MetaBool(flag: bool) | MetaText(text: string) | MetaOther

  /** Fields the context code never reads are left out. An absent metadata map is an empty one. */
  datatype RetrievedChunk = RetrievedChunk(
    id: string,
    documentID: string,
    documentName: string,
    content: string,
    chunkNumber: int,
    totalChunks: int,
    score: real,
    contentType: string,
    metadata: map<string, MetaValue>)

  function ChunkTokens(c: RetrievedChunk): nat {
    EstimateTokenCount(c.content)
  }

  function TotalTokens(chunks: seq<RetrievedChunk>): nat {
    Total(chunks, ChunkTokens)
  }

  /** A chunk counts with a token for every four bytes of its content, and a stretch with the sum. */
  lemma TokensAddUp(chunks: seq<RetrievedChunk>, c: RetrievedChunk)
    ensures TotalTokens([]) == 0
    ensures TotalTokens(chunks + [c]) == TotalTokens(chunks) + Bytes(c.content) / 4
  {
    TotalAppend(chunks, c, ChunkTokens);
  }

  method SumTokens(chunks: seq<RetrievedChunk>) returns (tokens: nat)
    ensures tokens == TotalTokens(chunks)
  {
    tokens := 0;
    for i := 0 to |chunks|
      invariant tokens == TotalTokens(chunks[..i])
    {
      assert chunks[..i + 1][..i] == chunks[..i];
      tokens := tokens + EstimateTokenCount(chunks[i].content);
    }
    assert chunks[..|chunks|] == chunks;
  }
}
