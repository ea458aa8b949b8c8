/** Formatting retrieved chunks for the prompt, and how far the result can overshoot its budget. */
module Formatter {
  import opened Text
  import opened Chunks
  import opened Budgets
  import opened Rendering

  datatype Injection = Injection(text: string, chunkCount: nat, documentCount: nat, totalTokens: nat, truncated: bool)

  const HEADER := "\n--- RELEVANT CONTEXT ---\n\n"
  const FOOTER := "\n--- END CONTEXT ---\n"

  /** The tokens of the header alone, which the loop starts from. */
  const HEADER_TOKENS := 6

  lemma FrameBytes()
    ensures Bytes(HEADER) == 27 && EstimateTokenCount(HEADER) == HEADER_TOKENS
    ensures Bytes(FOOTER) == 21
  {
    AsciiBytes(HEADER);
    AsciiBytes(FOOTER);
  }

  /** What formatting the given chunks, of which the first n are included, reports. */
  ghost predicate Formats(r: Injection, chunks: seq<RetrievedChunk>, n: nat) {
    && n <= |chunks|
    && r.text == HEADER + Rendered(chunks[..n]) + FOOTER
    && r.chunkCount == n
    && r.documentCount == |DocumentsIn(chunks[..n])|
    && r.totalTokens == EstimateTokenCount(r.text)
    && (r.truncated <==> n < |chunks|)
  }

  /** Where the loop stands with the first n chunks written. */
  ghost predicate Writing(chunks: seq<RetrievedChunk>, n: nat, text: string, current: string, documents: set<string>,
                          tokens: int) {
    && n <= |chunks|
    && Written(HEADER, chunks[..n], text, current, documents)
    && tokens == HEADER_TOKENS + TotalTokens(chunks[..n])
  }

  method WriteOneMore(chunks: seq<RetrievedChunk>, n: nat, text: string, current: string, documents: set<string>,
                      tokens: nat)
    returns (text': string, current': string, documents': set<string>, tokens': nat)
    requires Writing(chunks, n, text, current, documents, tokens) && n < |chunks|
    ensures Writing(chunks, n + 1, text', current', documents', tokens')
    ensures tokens' == tokens + ChunkTokens(chunks[n])
  {
    assert chunks[..n + 1] == chunks[..n] + [chunks[n]];
    TotalAppend(chunks[..n], chunks[n], ChunkTokens);
    text', current', documents' := WriteNext(text, current, documents, chunks[n], HEADER, chunks[..n]);
    tokens' := tokens + ChunkTokens(chunks[n]);
  }

  /** The loop: write chunks after the header while they fit. */
  method WriteFitting(chunks: seq<RetrievedChunk>, maxTokens: int)
    returns (n: nat, text: string, documents: set<string>)
    ensures n <= |chunks| && text == HEADER + Rendered(chunks[..n]) && documents == DocumentsIn(chunks[..n])
    ensures maxTokens <= 0 ==> n == |chunks|
    ensures maxTokens > 0 && n > 0 ==> HEADER_TOKENS + TotalTokens(chunks[..n]) <= maxTokens
    ensures maxTokens > 0 && n < |chunks| ==>
              HEADER_TOKENS + TotalTokens(chunks[..n]) + ChunkTokens(chunks[n]) > maxTokens
  {
    FrameBytes();
    var current, tokens := "", EstimateTokenCount(HEADER);
    n, text, documents := 0, HEADER, {};
    assert HEADER + "" == HEADER;
    while n < |chunks| && !(maxTokens > 0 && tokens + ChunkTokens(chunks[n]) > maxTokens)
      invariant Writing(chunks, n, text, current, documents, tokens)
      invariant maxTokens > 0 && n > 0 ==> tokens <= maxTokens
    {
      text, current, documents, tokens := WriteOneMore(chunks, n, text, current, documents, tokens);
      n := n + 1;
    }
  }

  /** Nothing in, nothing out. Otherwise the included chunks are the longest prefix that fits maxTokens
      after the header, or all of them when there is no limit. */
  method FormatContextForInjection(chunks: seq<RetrievedChunk>, maxTokens: int) returns (r: Injection)
    ensures chunks == [] ==> r == Injection("", 0, 0, 0, false)
    ensures chunks != [] ==> Formats(r, chunks, r.chunkCount)
    ensures chunks != [] && maxTokens <= 0 ==> r.chunkCount == |chunks|
    ensures chunks != [] && maxTokens > 0 ==>
              LongestPrefix(chunks[..r.chunkCount], chunks, ChunkTokens, maxTokens - HEADER_TOKENS)
  {
    if |chunks| == 0 {
      return Injection("", 0, 0, 0, false);
    }
    var n, text, documents := WriteFitting(chunks, maxTokens);
    if maxTokens > 0 {
      StopAtOverflow(chunks, n, ChunkTokens, maxTokens - HEADER_TOKENS);
    }
    r := Injection(text + FOOTER, n, |documents|, EstimateTokenCount(text + FOOTER), n < |chunks|);
  }

  /** The length of the formatted text, byte for byte. */
  lemma FormattedBytes(chunks: seq<RetrievedChunk>)
    ensures Bytes(HEADER + Rendered(chunks) + FOOTER)
         == 48 + Total(chunks, ContentBytes) + HeadingBytes(chunks) + |chunks|
  {
    FrameBytes();
    RenderedBytes(chunks);
    BytesConcat(HEADER, Rendered(chunks));
    BytesConcat(HEADER + Rendered(chunks), FOOTER);
  }

  /** Overshoot bound: with k chunks included and S bytes of headings, the reported tokens exceed a limit
      of at least the header by at most k + 6 + S/4; below that they exceed the header's by as much. */
  lemma OvershootBound(r: Injection, chunks: seq<RetrievedChunk>, maxTokens: int)
    requires maxTokens > 0 && Formats(r, chunks, r.chunkCount)
    requires LongestPrefix(chunks[..r.chunkCount], chunks, ChunkTokens, maxTokens - HEADER_TOKENS)
    ensures r.totalTokens <= (if maxTokens >= HEADER_TOKENS then maxTokens else HEADER_TOKENS)
                             + r.chunkCount + 6 + HeadingBytes(chunks[..r.chunkCount]) / 4
  {
    FormattedBytes(chunks[..r.chunkCount]);
    RoundingLoss(chunks[..r.chunkCount]);
  }

  /** When the formatted context stays within the limit, by the bytes of what is included. */
  lemma WithinLimitExactly(r: Injection, chunks: seq<RetrievedChunk>, maxTokens: int)
    requires Formats(r, chunks, r.chunkCount)
    ensures var included := chunks[..r.chunkCount];
            r.totalTokens <= maxTokens
            <==> 48 + Total(included, ContentBytes) + HeadingBytes(included) + |included| < 4 * (maxTokens + 1)
  {
    FormattedBytes(chunks[..r.chunkCount]);
  }

  // ---- the overshoot is reached ----

  /** k chunks of three bytes: no tokens each, four bytes once written. */
  function Crumbs(k: nat): seq<RetrievedChunk> {
    seq(k, _ => RetrievedChunk("id", "", "", "abc", 0, 0, 0.0, "", map[]))
  }

  /** A chunk that uses up the given tokens, with three bytes to spare, under the given title. */
  function Filling(tokens: nat, title: string): RetrievedChunk {
    RetrievedChunk("id", if title == "" then "" else "doc", title, seq(4 * tokens + 3, _ => 'a'), 0, 0, 0.0, "", map[])
  }

  /** The worst case for k chunks under the limit. */
  function Brimming(maxTokens: int, k: nat, title: string): seq<RetrievedChunk>
    requires maxTokens >= HEADER_TOKENS && k >= 1
  {
    [Filling(maxTokens - HEADER_TOKENS, title)] + Crumbs(k - 1)
  }

  /** A title is its name and nineteen bytes. */
  lemma TitleBytes(c: RetrievedChunk)
    ensures Bytes(Title(c)) == 19 + Bytes(if c.documentName == "" then c.documentID else c.documentName)
  {
    var name := if c.documentName == "" then c.documentID else c.documentName;
    var opening, closing := "--- Document: ", " ---\n";
    BytesConcat(opening, name);
    BytesConcat(opening + name, closing);
    AsciiBytes(opening);
    AsciiBytes(closing);
  }

  lemma FillingSizes(tokens: nat, title: string)
    requires Ascii(title)
    ensures ChunkTokens(Filling(tokens, title)) == tokens
    ensures ContentBytes(Filling(tokens, title)) == 4 * tokens + 3
    ensures Bytes(Heading("", Filling(tokens, title))) == if title == "" then 0 else 19 + |title|
  {
    AsciiBytes(Filling(tokens, title).content);
    if title != "" {
      TitleBytes(Filling(tokens, title));
      AsciiBytes(title);
    }
  }

  lemma SingleSizes(c: RetrievedChunk)
    ensures TotalTokens([c]) == ChunkTokens(c) && Total([c], ContentBytes) == ContentBytes(c)
    ensures HeadingBytes([c]) == Bytes(Heading("", c))
  {
    var one := [c];
    assert one[..|one| - 1] == [];
    assert [] + [c] == one;
    TotalAppend([], c, ChunkTokens);
  }

  /** One more crumb after some chunks. */
  lemma CrumbSizes(chunks: seq<RetrievedChunk>)
    ensures var more := chunks + [Crumbs(1)[0]];
            && TotalTokens(more) == TotalTokens(chunks)
            && Total(more, ContentBytes) == Total(chunks, ContentBytes) + 3
            && HeadingBytes(more) == HeadingBytes(chunks)
  {
    var more := chunks + [Crumbs(1)[0]];
    assert more[..|more| - 1] == chunks;
    AsciiBytes("abc");
    assert Bytes("") == 0;
  }

  lemma {:induction false} BrimmingSizes(maxTokens: int, k: nat, title: string)
    requires maxTokens >= HEADER_TOKENS && k >= 1 && Ascii(title)
    ensures var chunks := Brimming(maxTokens, k, title);
            && TotalTokens(chunks) == maxTokens - HEADER_TOKENS
            && Total(chunks, ContentBytes) == 4 * (maxTokens - HEADER_TOKENS) + 3 * k
            && HeadingBytes(chunks) == if title == "" then 0 else 19 + |title|
  {
    if k == 1 {
      FillingSizes(maxTokens - HEADER_TOKENS, title);
      SingleSizes(Filling(maxTokens - HEADER_TOKENS, title));
      assert Brimming(maxTokens, k, title) == [Filling(maxTokens - HEADER_TOKENS, title)];
    } else {
      assert Brimming(maxTokens, k, title) == Brimming(maxTokens, k - 1, title) + [Crumbs(1)[0]];
      BrimmingSizes(maxTokens, k - 1, title);
      CrumbSizes(Brimming(maxTokens, k - 1, title));
    }
  }

  /** The bound is reached, at every limit from the header's tokens on and for every number of chunks; so
      no such limit guarantees that the formatted context stays within it. */
  lemma OvershootIsReached(r: Injection, maxTokens: int, k: nat, title: string)
    requires maxTokens >= HEADER_TOKENS && k >= 1 && Ascii(title)
    requires var chunks := Brimming(maxTokens, k, title);
             && Formats(r, chunks, r.chunkCount)
             && LongestPrefix(chunks[..r.chunkCount], chunks, ChunkTokens, maxTokens - HEADER_TOKENS)
    ensures r.chunkCount == k
    ensures r.totalTokens == maxTokens + k + 6 + (if title == "" then 0 else 19 + |title|) / 4
  {
    var chunks := Brimming(maxTokens, k, title);
    BrimmingSizes(maxTokens, k, title);
    assert chunks[..k] == chunks;
    assert r.chunkCount == k;
    FormattedBytes(chunks);
  }

  /** A heading takes at least twenty bytes. */
  lemma LeastTitle(current: string, c: RetrievedChunk)
    ensures Heading(current, c) == "" || Bytes(Heading(current, c)) >= 20
  {
    TitleBytes(c);
    BytesConcat("\n", Title(c));
  }

  lemma {:induction false} LeastHeading(chunks: seq<RetrievedChunk>)
    ensures HeadingBytes(chunks) == 0 || HeadingBytes(chunks) >= 20
  {
    if chunks != [] {
      LeastHeading(chunks[..|chunks| - 1]);
      LeastTitle(CurrentDocument(chunks[..|chunks| - 1]), chunks[|chunks| - 1]);
    }
  }

  /** A result of formatting some chunks under the limit, with at most k of them included and at most s
      bytes of headings. */
  ghost predicate Possible(r: Injection, chunks: seq<RetrievedChunk>, maxTokens: int, k: nat, s: nat) {
    && Formats(r, chunks, r.chunkCount) && r.chunkCount <= k
    && LongestPrefix(chunks[..r.chunkCount], chunks, ChunkTokens, maxTokens - HEADER_TOKENS)
    && HeadingBytes(chunks[..r.chunkCount]) <= s
  }

  /** The worst case is possible. */
  lemma WorstIsPossible(maxTokens: int, k: nat, s: nat, title: string) returns (r: Injection)
    requires maxTokens >= HEADER_TOKENS && k >= 1 && Ascii(title)
    requires if title == "" then true else 19 + |title| <= s
    ensures Possible(r, Brimming(maxTokens, k, title), maxTokens, k, s)
    ensures r.totalTokens == maxTokens + k + 6 + (if title == "" then 0 else 19 + |title|) / 4
  {
    var worst := Brimming(maxTokens, k, title);
    var text := HEADER + Rendered(worst) + FOOTER;
    r := Injection(text, k, |DocumentsIn(worst)|, EstimateTokenCount(text), false);
    BrimmingSizes(maxTokens, k, title);
    assert worst[..k] == worst;
    StopAtOverflow(worst, k, ChunkTokens, maxTokens - HEADER_TOKENS);
    OvershootIsReached(r, maxTokens, k, title);
  }

  lemma PossibleBound(r: Injection, chunks: seq<RetrievedChunk>, maxTokens: int, k: nat, s: nat)
    requires maxTokens >= HEADER_TOKENS && Possible(r, chunks, maxTokens, k, s)
    ensures r.totalTokens <= maxTokens + k + 6 + (if s < 20 then 0 else s / 4)
  {
    OvershootBound(r, chunks, maxTokens);
    LeastHeading(chunks[..r.chunkCount]);
  }

  /** Exactly how large results can get: for every limit from the header's tokens on, all results with at
      most k chunks and at most s bytes of headings stay within a bound if and only if the bound leaves
      k + 6 + s/4 beyond the limit. No heading at all fits in less than twenty bytes. */
  lemma OvershootExactly(maxTokens: int, k: nat, s: nat, bound: int)
    requires maxTokens >= HEADER_TOKENS && k >= 1
    ensures (forall r, chunks | Possible(r, chunks, maxTokens, k, s) :: r.totalTokens <= bound)
       <==> maxTokens + k + 6 + (if s < 20 then 0 else s / 4) <= bound
  {
    var title := if s < 20 then "" else seq(s - 19, _ => 'a');
    var r := WorstIsPossible(maxTokens, k, s, title);
    forall q, chunks | Possible(q, chunks, maxTokens, k, s)
      ensures q.totalTokens <= maxTokens + k + 6 + (if s < 20 then 0 else s / 4)
    {
      PossibleBound(q, chunks, maxTokens, k, s);
    }
  }
}
