/** Fetching a file's chunks page by page, and whole documents file by file. */
module Paging {
  import opened Text
  import opened Chunks
  import opened Budgets

  datatype StoredChunk = StoredChunk(id: string, fileID: string, chunkType: string, chunkNumber: int, content: string,
                                     metadata: map<string, MetaValue>)

  /** What the server answers to a request for one page. */
  datatype Page = PageFailed | Page(chunks: seq<StoredChunk>, totalCount: int, hasNext: bool)

  /** The server: an answer for every page number. */
  type Server = nat -> Page

  datatype FetchResult = FetchFailed | Fetched(chunks: seq<StoredChunk>, totalCount: int)

  const MAX_TOKEN_BUDGET := 50000
  const MAX_PAGES := 100

  function StoredTokens(c: StoredChunk): nat { EstimateTokenCount(c.content) }

  /** A stored chunk counts with a token for every four bytes of its content. */
  lemma TokensAddUp(chunks: seq<StoredChunk>, c: StoredChunk)
    ensures Total([], StoredTokens) == 0
    ensures Total(chunks + [c], StoredTokens) == Total(chunks, StoredTokens) + Bytes(c.content) / 4
  {
    TotalAppend(chunks, c, StoredTokens);
  }

  predicate IsLastPage(server: Server, p: nat) {
    server(p).PageFailed? || !server(p).hasNext || server(p).chunks == [] || p >= MAX_PAGES
  }

  /** The page the loop stops at, from page p on, if the budget does not stop it earlier. */
  function StopPage(server: Server, p: nat): (stop: nat)
    requires p <= MAX_PAGES
    ensures p <= stop <= MAX_PAGES && IsLastPage(server, stop)
    ensures forall q | p <= q < stop :: !IsLastPage(server, q)
    decreases MAX_PAGES - p
  {
    if IsLastPage(server, p) then p else StopPage(server, p + 1)
  }

  function PageChunks(server: Server, p: nat): seq<StoredChunk> {
    if server(p).PageFailed? then [] else server(p).chunks
  }

  /** Pages 1 to p, concatenated. */
  function PagesTo(server: Server, p: nat): seq<StoredChunk> {
    if p == 0 then [] else PagesTo(server, p - 1) + PageChunks(server, p)
  }

  lemma {:induction false} PagesGrow(server: Server, p: nat, q: nat)
    requires p <= q
    ensures PagesTo(server, p) <= PagesTo(server, q)
  {
    if p < q {
      PagesGrow(server, p, q - 1);
    }
  }

  /** A budget stop inside page p stops at the same place in all the pages. */
  lemma StopInside(server: Server, p: nat, stop: nat, n: nat)
    requires 1 <= p <= stop && n < |PageChunks(server, p)|
    requires Total(PagesTo(server, p - 1) + PageChunks(server, p)[..n], StoredTokens) <= MAX_TOKEN_BUDGET
    requires Total(PagesTo(server, p - 1) + PageChunks(server, p)[..n], StoredTokens)
           + StoredTokens(PageChunks(server, p)[n]) > MAX_TOKEN_BUDGET
    ensures LongestPrefix(PagesTo(server, p - 1) + PageChunks(server, p)[..n],
                          PagesTo(server, stop), StoredTokens, MAX_TOKEN_BUDGET)
    ensures Total(PagesTo(server, stop), StoredTokens) > MAX_TOKEN_BUDGET
  {
    var all, m := PagesTo(server, stop), |PagesTo(server, p - 1)| + n;
    PagesGrow(server, p, stop);
    assert PagesTo(server, p) == PagesTo(server, p - 1) + PageChunks(server, p);
    assert all[..m] == PagesTo(server, p)[..m] == PagesTo(server, p - 1) + PageChunks(server, p)[..n];
    assert all[m] == PageChunks(server, p)[n];
    StopAtOverflow(all, m, StoredTokens, MAX_TOKEN_BUDGET);
    assert all[..|all|] == all;
  }

  /** The chunks of one page that still fit. */
  method TakePage(chunks: seq<StoredChunk>, before: seq<StoredChunk>, tokens: nat)
    returns (n: nat, all: seq<StoredChunk>, total: nat)
    requires tokens == Total(before, StoredTokens) <= MAX_TOKEN_BUDGET
    ensures n <= |chunks| && all == before + chunks[..n]
    ensures total == Total(all, StoredTokens) <= MAX_TOKEN_BUDGET
    ensures n < |chunks| ==> total + StoredTokens(chunks[n]) > MAX_TOKEN_BUDGET
  {
    n, all, total := 0, before, tokens;
    assert before + chunks[..0] == before;
    while n < |chunks| && total + StoredTokens(chunks[n]) <= MAX_TOKEN_BUDGET
      invariant n <= |chunks| && all == before + chunks[..n]
      invariant total == Total(all, StoredTokens) <= MAX_TOKEN_BUDGET
    {
      assert before + chunks[..n + 1] == all + [chunks[n]];
      assert (all + [chunks[n]])[..|all|] == all;
      all := all + [chunks[n]];
      total := total + StoredTokens(chunks[n]);
      n := n + 1;
    }
  }

  /** What a fetch that stops for good must have found. */
  ghost predicate IsFetchOf(r: FetchResult, server: Server) {
    var stop := StopPage(server, 1);
    var all := PagesTo(server, stop);
    && (r.FetchFailed? <==> server(stop).PageFailed? && Total(all, StoredTokens) <= MAX_TOKEN_BUDGET)
    && (r.Fetched? ==> LongestPrefix(r.chunks, all, StoredTokens, MAX_TOKEN_BUDGET))
  }

  /** Page p is where the fetch ends: the first one whose chunks exceed the budget, or the stopping page.
      The count reported is the one it carries. */
  ghost predicate EndsAt(r: FetchResult, server: Server, p: nat) {
    && 1 <= p <= StopPage(server, 1)
    && (forall q | 0 <= q < p :: Total(PagesTo(server, q), StoredTokens) <= MAX_TOKEN_BUDGET)
    && (p < StopPage(server, 1) ==> Total(PagesTo(server, p), StoredTokens) > MAX_TOKEN_BUDGET)
    && (r.Fetched? ==> !server(p).PageFailed? && r.totalCount == server(p).totalCount)
  }

  /** The requests stop at page p and not before: each earlier page came, had chunks and a next page, and
      left the budget unexceeded; page p failed, had none of either, was the hundredth, or exceeded it. */
  ghost predicate StopsAt(server: Server, p: nat) {
    && (forall q | 1 <= q < p ::
          && server(q).Page? && server(q).hasNext && server(q).chunks != []
          && Total(PagesTo(server, q), StoredTokens) <= 50000)
    && 1 <= p <= 100
    && (p == 100 || server(p).PageFailed? || !server(p).hasNext || server(p).chunks == []
        || Total(PagesTo(server, p), StoredTokens) > 50000)
  }

  lemma EndIsStop(r: FetchResult, server: Server, p: nat)
    requires EndsAt(r, server, p)
    ensures StopsAt(server, p)
  {
    var stop := StopPage(server, 1);
    PagesGoOn(server, stop);
    assert p == stop ==> IsLastPage(server, p);
  }

  lemma PagesGoOn(server: Server, stop: nat)
    requires stop == StopPage(server, 1)
    ensures forall q | 1 <= q < stop :: server(q).Page? && server(q).hasNext && server(q).chunks != []
  {
    forall q | 1 <= q < stop ensures server(q).Page? && server(q).hasNext && server(q).chunks != [] {
      assert !IsLastPage(server, q);
    }
  }

  lemma FitsBefore(server: Server, p: nat)
    requires Total(PagesTo(server, p), StoredTokens) <= MAX_TOKEN_BUDGET
    ensures forall q | 0 <= q <= p :: Total(PagesTo(server, q), StoredTokens) <= MAX_TOKEN_BUDGET
  {
    forall q | 0 <= q <= p ensures Total(PagesTo(server, q), StoredTokens) <= MAX_TOKEN_BUDGET {
      var all := PagesTo(server, p);
      PagesGrow(server, q, p);
      assert all[..|PagesTo(server, q)|] == PagesTo(server, q) && all[..|all|] == all;
      TotalPrefix(all, |PagesTo(server, q)|, |all|, StoredTokens);
    }
  }

  /** The loop goes on (None), or stops with a result. */
  datatype Turn = GoOn(all: seq<StoredChunk>, tokens: nat) | Stop(r: FetchResult)

  /** One request and what it adds. */
  method FetchPage(server: Server, page: nat, all: seq<StoredChunk>, tokens: nat) returns (turn: Turn)
    requires 1 <= page <= StopPage(server, 1) == StopPage(server, page)
    requires all == PagesTo(server, page - 1) && tokens == Total(all, StoredTokens) <= MAX_TOKEN_BUDGET
    ensures turn.Stop? ==> IsFetchOf(turn.r, server) && EndsAt(turn.r, server, page)
    ensures turn.GoOn? ==>
              && page < StopPage(server, 1) == StopPage(server, page + 1)
              && turn.all == PagesTo(server, page) && turn.tokens == Total(turn.all, StoredTokens) <= MAX_TOKEN_BUDGET
  {
    var response := server(page);
    FitsBefore(server, page - 1);
    if response.PageFailed? {
      assert PagesTo(server, page) == all;
      return Stop(FetchFailed);
    }
    var n, added, total := TakePage(response.chunks, all, tokens);
    if n < |response.chunks| {
      StopInside(server, page, StopPage(server, 1), n);
      StopInside(server, page, page, n);
      return Stop(Fetched(added, response.totalCount));
    }
    assert response.chunks[..n] == response.chunks;
    assert added == PagesTo(server, page);
    if !response.hasNext || |response.chunks| == 0 || page + 1 > MAX_PAGES {
      return Stop(Fetched(added, response.totalCount));
    }
    return GoOn(added, total);
  }

  /** For any server at all: at most a hundred requests, one for each page up to the one where the fetch
      ends, whose count is reported; and the result is the longest prefix within
      the token budget of the pages up to the stopping page. The fetch fails exactly when it stops at a
      failing page with the budget not yet exceeded by the pages before it. */
  method FetchChunksForFile(server: Server) returns (r: FetchResult, requests: nat)
    ensures requests <= MAX_PAGES
    ensures IsFetchOf(r, server) && EndsAt(r, server, requests) && StopsAt(server, requests)
  {
    var all, tokens, page := [], 0, 1;
    requests := 0;
    while true
      invariant 1 <= page <= StopPage(server, 1) == StopPage(server, page)
      invariant requests == page - 1
      invariant all == PagesTo(server, page - 1)
      invariant tokens == Total(all, StoredTokens) <= MAX_TOKEN_BUDGET
      decreases MAX_PAGES - page
    {
      var turn := FetchPage(server, page, all, tokens);
      requests := requests + 1;
      match turn
      case Stop(result) =>
        EndIsStop(result, server, page);
        return result, requests;
      case GoOn(more, total) =>
        all, tokens := more, total;
        page := page + 1;
    }
  }

  // ---- whole documents ----

  function ToRetrieved(c: StoredChunk): RetrievedChunk {
    RetrievedChunk(c.id, c.fileID, "", c.content, c.chunkNumber, 0, 0.0, c.chunkType, c.metadata)
  }

  /** What a file contributes: nothing when its fetch fails. */
  function FileChunks(server: Server): seq<StoredChunk> {
    var all := PagesTo(server, StopPage(server, 1));
    if server(StopPage(server, 1)).PageFailed? && Total(all, StoredTokens) <= MAX_TOKEN_BUDGET then []
    else PrefixWithin(all, StoredTokens, MAX_TOKEN_BUDGET)
  }

  function AllFiles(servers: seq<Server>): seq<StoredChunk> {
    if servers == [] then [] else AllFiles(servers[..|servers| - 1]) + FileChunks(servers[|servers| - 1])
  }

  function Converted(stored: seq<StoredChunk>): seq<RetrievedChunk> {
    if stored == [] then [] else Converted(stored[..|stored| - 1]) + [ToRetrieved(stored[|stored| - 1])]
  }

  lemma {:induction false} ConvertedTokens(stored: seq<StoredChunk>)
    ensures |Converted(stored)| == |stored|
    ensures TotalTokens(Converted(stored)) == Total(stored, StoredTokens)
  {
    if stored != [] {
      ConvertedTokens(stored[..|stored| - 1]);
      assert Converted(stored)[..|stored| - 1] == Converted(stored[..|stored| - 1]);
    }
  }

  /** A file contributes at most its own token budget. */
  lemma FileWithinBudget(server: Server)
    ensures Total(FileChunks(server), StoredTokens) <= MAX_TOKEN_BUDGET
  {
    PrefixWithinIsLongest(PagesTo(server, StopPage(server, 1)), StoredTokens, MAX_TOKEN_BUDGET);
  }

  lemma {:induction false} FilesWithinBudget(servers: seq<Server>)
    ensures Total(AllFiles(servers), StoredTokens) <= MAX_TOKEN_BUDGET * |servers|
  {
    if servers != [] {
      var init, server := servers[..|servers| - 1], servers[|servers| - 1];
      FilesWithinBudget(init);
      FileWithinBudget(server);
      TotalConcat(AllFiles(init), FileChunks(server), StoredTokens);
    }
  }

  /** A retrieved chunk is the stored one: its ID, content, number, type and metadata, with the file as
      its document. */
  ghost predicate Retrieved(r: RetrievedChunk, c: StoredChunk) {
    && r.id == c.id && r.documentID == c.fileID && r.content == c.content && r.chunkNumber == c.chunkNumber
    && r.contentType == c.chunkType && r.metadata == c.metadata
    && r.documentName == "" && r.totalChunks == 0 && r.score == 0.0
  }

  lemma {:induction false} ConvertedAt(stored: seq<StoredChunk>)
    ensures |Converted(stored)| == |stored|
    ensures forall i | 0 <= i < |stored| :: Retrieved(Converted(stored)[i], stored[i])
  {
    if stored != [] {
      ConvertedAt(stored[..|stored| - 1]);
    }
  }

  lemma {:induction false} ConvertedConcat(a: seq<StoredChunk>, b: seq<StoredChunk>)
    ensures Converted(a + b) == Converted(a) + Converted(b)
  {
    if b == [] {
      assert a + b == a;
    } else {
      assert (a + b)[..|a + b| - 1] == a + b[..|b| - 1];
      ConvertedConcat(a, b[..|b| - 1]);
    }
  }

  /** Each result is its server's fetch. */
  ghost predicate FetchesOf(fetched: seq<FetchResult>, servers: seq<Server>) {
    && |fetched| == |servers|
    && forall i | 0 <= i < |servers| :: IsFetchOf(fetched[i], servers[i])
  }

  /** What the fetches brought: nothing for a failed one, all its chunks for any other. */
  ghost function Brought(fetched: seq<FetchResult>): multiset<RetrievedChunk> {
    if fetched == [] then multiset{}
    else
      var r := fetched[|fetched| - 1];
      Brought(fetched[..|fetched| - 1]) + if r.FetchFailed? then multiset{} else multiset(Converted(r.chunks))
  }

  /** There is only one fetch of a server's chunks. */
  lemma FetchIsFileChunks(r: FetchResult, server: Server)
    requires IsFetchOf(r, server)
    ensures FileChunks(server) == if r.FetchFailed? then [] else r.chunks
  {
    if r.Fetched? {
      var all := PagesTo(server, StopPage(server, 1));
      PrefixWithinIsLongest(all, StoredTokens, MAX_TOKEN_BUDGET);
      LongestPrefixUnique(r.chunks, PrefixWithin(all, StoredTokens, MAX_TOKEN_BUDGET),
                          all, StoredTokens, MAX_TOKEN_BUDGET);
    }
  }

  lemma {:induction false} AllFilesBrought(fetched: seq<FetchResult>, servers: seq<Server>)
    requires FetchesOf(fetched, servers)
    ensures multiset(Converted(AllFiles(servers))) == Brought(fetched)
  {
    if servers != [] {
      var n := |servers| - 1;
      AllFilesBrought(fetched[..n], servers[..n]);
      FetchIsFileChunks(fetched[n], servers[n]);
      ConvertedConcat(AllFiles(servers[..n]), FileChunks(servers[n]));
      assert FileChunks(servers[n]) == [] ==> multiset(Converted(FileChunks(servers[n]))) == multiset{};
    }
  }

  /** Every page up to the last stands where its turn was: the pages before it come first, whole. */
  lemma {:induction false} PagesInOrder(server: Server, p: nat, q: nat)
    requires 1 <= q <= p
    ensures |PagesTo(server, q - 1)| <= |PagesTo(server, q)| <= |PagesTo(server, p)|
    ensures PagesTo(server, p)[|PagesTo(server, q - 1)|..|PagesTo(server, q)|] == PageChunks(server, q)
    ensures PagesTo(server, 0) == []
  {
    if q < p {
      PagesInOrder(server, p - 1, q);
    }
  }

  /** By document, then by chunk number. */
  predicate InDocumentOrder(a: RetrievedChunk, b: RetrievedChunk) {
    AtMost(a.documentID, b.documentID) && (a.documentID == b.documentID ==> a.chunkNumber <= b.chunkNumber)
  }

  lemma DocumentOrderIsPreorder()
    ensures TotalPreorder(InDocumentOrder)
  {
    forall a, b ensures InDocumentOrder(a, b) || InDocumentOrder(b, a) {
      AtMostTotal(a.documentID, b.documentID);
    }
    forall a, b, c | InDocumentOrder(a, b) && InDocumentOrder(b, c) ensures InDocumentOrder(a, c) {
      AtMostTransitive(a.documentID, b.documentID, c.documentID);
      AtMostTotal(a.documentID, b.documentID);
    }
  }

  /** Sorted so, the chunks of a document stand together, their numbers ascending, and documents follow one
      another in the order of their IDs. */
  lemma SortedMeans(chunks: seq<RetrievedChunk>, i: nat, j: nat, k: nat)
    requires Sorted(chunks, InDocumentOrder) && i < j < k < |chunks|
    ensures chunks[i].documentID == chunks[k].documentID ==>
              && chunks[j].documentID == chunks[i].documentID
              && chunks[i].chunkNumber <= chunks[j].chunkNumber <= chunks[k].chunkNumber
    ensures chunks[i].documentID != chunks[j].documentID ==> !AtMost(chunks[j].documentID, chunks[i].documentID)
  {
    AtMostTotal(chunks[i].documentID, chunks[j].documentID);
    AtMostTotal(chunks[j].documentID, chunks[k].documentID);
    assert InDocumentOrder(chunks[i], chunks[j]) && InDocumentOrder(chunks[j], chunks[k]);
  }

  /** One file's contribution: skipped when its fetch fails. */
  method FetchOrSkip(server: Server) returns (chunks: seq<StoredChunk>)
    ensures chunks == FileChunks(server)
  {
    var r, _ := FetchChunksForFile(server);
    if r.FetchFailed? {
      return [];
    }
    var all := PagesTo(server, StopPage(server, 1));
    PrefixWithinIsLongest(all, StoredTokens, MAX_TOKEN_BUDGET);
    LongestPrefixUnique(r.chunks, PrefixWithin(all, StoredTokens, MAX_TOKEN_BUDGET),
                        all, StoredTokens, MAX_TOKEN_BUDGET);
    return r.chunks;
  }

  /** Over files: a permutation of everything fetched, sorted by document and chunk number, its tokens
      counted exactly and at most the budget for each file. */
  method RetrieveFullDocuments(servers: seq<Server>) returns (chunks: seq<RetrievedChunk>, totalTokens: nat)
    ensures multiset(chunks) == multiset(Converted(AllFiles(servers)))
    ensures forall fetched | FetchesOf(fetched, servers) :: multiset(chunks) == Brought(fetched)
    ensures Sorted(chunks, InDocumentOrder)
    ensures totalTokens == TotalTokens(chunks) <= MAX_TOKEN_BUDGET * |servers|
  {
    var all := [];
    for i := 0 to |servers|
      invariant all == AllFiles(servers[..i])
    {
      var fetched := FetchOrSkip(servers[i]);
      assert servers[..i + 1][..i] == servers[..i];
      all := all + fetched;
    }
    assert servers[..|servers|] == servers;
    var converted;
    converted, totalTokens := ConvertAll(all);
    DocumentOrderIsPreorder();
    chunks := SortBy(converted, InDocumentOrder);
    TotalPermutation(chunks, converted, ChunkTokens);
    ConvertedTokens(all);
    FilesWithinBudget(servers);
    forall fetched | FetchesOf(fetched, servers) ensures multiset(chunks) == Brought(fetched) {
      AllFilesBrought(fetched, servers);
    }
  }

  method ConvertAll(stored: seq<StoredChunk>) returns (chunks: seq<RetrievedChunk>, totalTokens: nat)
    ensures chunks == Converted(stored)
    ensures totalTokens == TotalTokens(chunks)
  {
    chunks, totalTokens := [], 0;
    for i := 0 to |stored|
      invariant chunks == Converted(stored[..i])
      invariant totalTokens == TotalTokens(chunks)
    {
      assert stored[..i + 1][..i] == stored[..i];
      var chunk := ToRetrieved(stored[i]);
      assert (chunks + [chunk])[..|chunks|] == chunks;
      chunks := chunks + [chunk];
      totalTokens := totalTokens + EstimateTokenCount(chunk.content);
    }
    assert stored[..|stored|] == stored;
  }
}
