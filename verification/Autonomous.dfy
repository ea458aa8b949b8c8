/** Autonomous retrieval: search hits under a token budget, then a few document summaries. */
module Autonomous {
  import opened Text
  import opened Chunks
  import opened Budgets
  import opened Rendering
  import opened Keyed

  datatype Lookup = NoSummary | Summary(text: string)

  const MAX_SUMMARIES := 3
  const SUMMARY_TITLE := "[Document Summary]\n"

  function SummaryChunk(doc: string, text: string): RetrievedChunk {
    RetrievedChunk("summary-" + doc, doc, "", SUMMARY_TITLE + text, 0, 0, 1.0, "summary", map[])
  }

  /** The summaries fetched so far: for which documents, with which texts. */
  datatype Fetched = Fetched(doc: string, text: string)

  function FetchedTokens(f: Fetched): nat { EstimateTokenCount(f.text) }

  /** A summary is recorded with a token for every four bytes of its text, its title left out. */
  lemma SummariesAddUp(fetched: seq<Fetched>, f: Fetched)
    ensures Total([], FetchedTokens) == 0
    ensures Total(fetched + [f], FetchedTokens) == Total(fetched, FetchedTokens) + Bytes(f.text) / 4
  {
    TotalAppend(fetched, f, FetchedTokens);
  }

  function AsChunks(fetched: seq<Fetched>): seq<RetrievedChunk> {
    if fetched == [] then []
    else AsChunks(fetched[..|fetched| - 1]) + [SummaryChunk(fetched[|fetched| - 1].doc, fetched[|fetched| - 1].text)]
  }

  /** Each summary is the server's own, not empty, for a document of the hits, and no document has two. */
  ghost predicate Genuine(fetched: seq<Fetched>, docs: set<string>, summaries: string -> Lookup) {
    && (forall i | 0 <= i < |fetched| ::
          && fetched[i].doc in docs
          && fetched[i].text != ""
          && summaries(fetched[i].doc) == Summary(fetched[i].text))
    && (forall i, j | 0 <= i < j < |fetched| :: fetched[i].doc != fetched[j].doc)
  }

  ghost predicate HasSummaryOf(fetched: seq<Fetched>, doc: string) {
    exists i :: 0 <= i < |fetched| && fetched[i].doc == doc
  }

  /** A document was passed over only for want of a summary or of room. */
  ghost predicate PassedOver(doc: string, summaries: string -> Lookup, room: int) {
    || summaries(doc) == NoSummary
    || summaries(doc).text == ""
    || EstimateTokenCount(summaries(doc).text) > room
  }

  /** Whether there is room, and a step, for summaries. */
  predicate WantsSummaries(chosen: seq<RetrievedChunk>, maxTokens: int, maxSteps: int) {
    TotalTokens(chosen) < Quotient(maxTokens * 80, 100) && |chosen| > 0 && maxSteps > 1
  }

  /** There is room when the next token still is within four fifths of the limit. */
  lemma WantsMeans(chosen: seq<RetrievedChunk>, maxTokens: nat, maxSteps: int)
    ensures WantsSummaries(chosen, maxTokens, maxSteps)
       <==> 5 * (TotalTokens(chosen) + 1) <= 4 * maxTokens && chosen != [] && maxSteps >= 2
  {
  }

  /** Each summary is a chunk of its document, under a title. */
  lemma {:induction false} AsChunksMeans(fetched: seq<Fetched>)
    ensures |AsChunks(fetched)| == |fetched|
    ensures forall i | 0 <= i < |fetched| ::
              var c := AsChunks(fetched)[i];
              && c.id == "summary-" + fetched[i].doc && c.documentID == fetched[i].doc
              && c.content == "[Document Summary]\n" + fetched[i].text
              && c.contentType == "summary" && c.score == 1.0
  {
    if fetched != [] {
      AsChunksMeans(fetched[..|fetched| - 1]);
    }
  }

  /** One document's turn: fetch its summary and add it if there is one and it fits. */
  method ConsiderDocument(doc: string, summaries: string -> Lookup, fetched: seq<Fetched>, tokens: nat, maxTokens: int,
                          ghost docs: set<string>, ghost base: nat)
    returns (after: seq<Fetched>, afterTokens: nat)
    requires doc in docs && !HasSummaryOf(fetched, doc) && Genuine(fetched, docs, summaries)
    requires tokens == base + Total(fetched, FetchedTokens)
    ensures Genuine(after, docs, summaries) && fetched <= after && |after| <= |fetched| + 1
    ensures afterTokens == base + Total(after, FetchedTokens) && afterTokens >= tokens
    ensures tokens <= maxTokens ==> afterTokens <= maxTokens
    ensures forall d | HasSummaryOf(after, d) :: HasSummaryOf(fetched, d) || d == doc
    ensures after == fetched || after[|fetched|].doc == doc
    ensures HasSummaryOf(after, doc) || PassedOver(doc, summaries, maxTokens - afterTokens)
  {
    after, afterTokens := fetched, tokens;
    var summary := summaries(doc);
    if summary.Summary? && summary.text != "" {
      var summaryTokens := EstimateTokenCount(summary.text);
      if tokens + summaryTokens <= maxTokens {
        after := fetched + [Fetched(doc, summary.text)];
        afterTokens := tokens + summaryTokens;
        assert after[..|fetched|] == fetched;
        assert after[|fetched|].doc == doc;
      }
    }
  }

  /** Every document seen has its summary or was passed over. */
  ghost predicate Settled(fetched: seq<Fetched>, seen: set<string>, summaries: string -> Lookup, room: int) {
    forall d | d in seen :: HasSummaryOf(fetched, d) || PassedOver(d, summaries, room)
  }

  function DocumentID(c: RetrievedChunk): string { c.documentID }

  /** Summaries come in the order in which their documents first appear. */
  ghost predicate InOrder(fetched: seq<Fetched>, chosen: seq<RetrievedChunk>) {
    forall i, j, p: nat, q: nat | 0 <= i < j < |fetched|
      && FirstAt(chosen, DocumentID, fetched[i].doc, p) && FirstAt(chosen, DocumentID, fetched[j].doc, q) :: p < q
  }

  /** The first n chunks were looked through: every document of theirs has its summary or was passed over,
      and no other has one; all of them, unless the summaries ran out. */
  ghost predicate LookedThrough(fetched: seq<Fetched>, chosen: seq<RetrievedChunk>, n: nat,
                                summaries: string -> Lookup, room: int) {
    && n <= |chosen| && (|fetched| < MAX_SUMMARIES ==> n == |chosen|)
    && (forall i | 0 <= i < |fetched| :: fetched[i].doc in DocumentsIn(chosen[..n]))
    && Settled(fetched, DocumentsIn(chosen[..n]), summaries, room)
  }

  ghost predicate StoppedWell(fetched: seq<Fetched>, chosen: seq<RetrievedChunk>, summaries: string -> Lookup,
                              room: int) {
    exists n :: LookedThrough(fetched, chosen, n, summaries, room)
  }

  lemma DocumentAmong(chosen: seq<RetrievedChunk>, n: nat, q: nat)
    requires n <= |chosen| && q < |chosen| && chosen[q].documentID != ""
    ensures q < n ==> chosen[q].documentID in DocumentsIn(chosen[..n])
  {
    if q < n {
      assert chosen[..n][q] == chosen[q];
    }
  }

  /** A document new at place n comes after those of the chunks before. */
  lemma NewInOrder(fetched: seq<Fetched>, chosen: seq<RetrievedChunk>, n: nat, f: Fetched)
    requires InOrder(fetched, chosen) && n < |chosen|
    requires forall i | 0 <= i < |fetched| :: fetched[i].doc in DocumentsIn(chosen[..n])
    requires f.doc != "" && f.doc !in DocumentsIn(chosen[..n])
    ensures InOrder(fetched + [f], chosen)
  {
    forall i, p: nat, q: nat | 0 <= i < |fetched|
      && FirstAt(chosen, DocumentID, fetched[i].doc, p) && FirstAt(chosen, DocumentID, f.doc, q)
      ensures p < q
    {
      var c :| c in chosen[..n] && c.documentID == fetched[i].doc;
      var m :| 0 <= m < n && chosen[..n][m] == c;
      assert DocumentID(chosen[m]) == fetched[i].doc;
      assert p <= m;
      DocumentAmong(chosen, n, q);
    }
  }

  /** Where the summary loop stands. */
  ghost predicate Collecting(chosen: seq<RetrievedChunk>, summaries: string -> Lookup, maxTokens: int,
                             seen: set<string>, fetched: seq<Fetched>, tokens: int) {
    && Genuine(fetched, DocumentsIn(chosen), summaries)
    && tokens == TotalTokens(chosen) + Total(fetched, FetchedTokens) <= maxTokens
    && (forall d | HasSummaryOf(fetched, d) :: d in seen)
    && Settled(fetched, seen, summaries, maxTokens - tokens)
  }

  /** The turn of a document not seen before. */
  method CollectNext(doc: string, chosen: seq<RetrievedChunk>, summaries: string -> Lookup, maxTokens: int,
                     seen: set<string>, fetched: seq<Fetched>, tokens: nat)
    returns (after: seq<Fetched>, afterTokens: nat)
    requires Collecting(chosen, summaries, maxTokens, seen, fetched, tokens)
    requires doc in DocumentsIn(chosen) && doc !in seen
    ensures Collecting(chosen, summaries, maxTokens, seen + {doc}, after, afterTokens)
    ensures fetched <= after && |after| <= |fetched| + 1 && (after == fetched || after[|fetched|].doc == doc)
  {
    after, afterTokens := ConsiderDocument(doc, summaries, fetched, tokens, maxTokens,
                                             DocumentsIn(chosen), TotalTokens(chosen));
  }

  /** The loop before chunk n. */
  ghost predicate Looking(chosen: seq<RetrievedChunk>, summaries: string -> Lookup, maxTokens: int, n: nat,
                          seen: set<string>, fetched: seq<Fetched>, tokens: int) {
    && n <= |chosen| && seen == DocumentsIn(chosen[..n])
    && Collecting(chosen, summaries, maxTokens, seen, fetched, tokens)
    && InOrder(fetched, chosen)
  }

  lemma SeenDocuments(fetched: seq<Fetched>, seen: set<string>)
    requires forall d | HasSummaryOf(fetched, d) :: d in seen
    ensures forall i | 0 <= i < |fetched| :: fetched[i].doc in seen
  {
    forall i | 0 <= i < |fetched| ensures fetched[i].doc in seen {
      assert HasSummaryOf(fetched, fetched[i].doc);
    }
  }

  lemma DocumentsGrow(chosen: seq<RetrievedChunk>, n: nat)
    requires n < |chosen|
    ensures DocumentsIn(chosen[..n + 1])
         == DocumentsIn(chosen[..n]) + if chosen[n].documentID == "" then {} else {chosen[n].documentID}
  {
    assert chosen[..n + 1] == chosen[..n] + [chosen[n]];
  }

  lemma StillInOrder(before: seq<Fetched>, after: seq<Fetched>, chosen: seq<RetrievedChunk>, n: nat, seen: set<string>)
    requires n < |chosen| && seen == DocumentsIn(chosen[..n]) && InOrder(before, chosen)
    requires forall d | HasSummaryOf(before, d) :: d in seen
    requires before <= after && |after| <= |before| + 1
    requires after == before || (after[|before|].doc != "" && after[|before|].doc !in seen)
    ensures InOrder(after, chosen)
  {
    if after != before {
      SeenDocuments(before, seen);
      NewInOrder(before, chosen, n, after[|before|]);
      assert after == before + [after[|before|]];
    }
  }

  /** The turn of chunk n. */
  method LookAt(chosen: seq<RetrievedChunk>, summaries: string -> Lookup, maxTokens: int, n: nat,
                seen: set<string>, fetched: seq<Fetched>, tokens: nat)
    returns (seen': set<string>, fetched': seq<Fetched>, tokens': nat)
    requires n < |chosen| && Looking(chosen, summaries, maxTokens, n, seen, fetched, tokens)
    ensures Looking(chosen, summaries, maxTokens, n + 1, seen', fetched', tokens')
    ensures |fetched'| <= |fetched| + 1
  {
    var doc := chosen[n].documentID;
    DocumentsGrow(chosen, n);
    if doc != "" && doc !in seen {
      var after, afterTokens := CollectNext(doc, chosen, summaries, maxTokens, seen, fetched, tokens);
      StillInOrder(fetched, after, chosen, n, seen);
      return seen + {doc}, after, afterTokens;
    }
    return seen, fetched, tokens;
  }

  lemma LookedEnough(chosen: seq<RetrievedChunk>, summaries: string -> Lookup, maxTokens: int, n: nat,
                     seen: set<string>, fetched: seq<Fetched>, tokens: int)
    requires Looking(chosen, summaries, maxTokens, n, seen, fetched, tokens)
    requires |fetched| >= MAX_SUMMARIES || n == |chosen|
    ensures StoppedWell(fetched, chosen, summaries, maxTokens - tokens)
    ensures n == |chosen| ==> Settled(fetched, DocumentsIn(chosen), summaries, maxTokens - tokens)
  {
    SeenDocuments(fetched, seen);
    assert LookedThrough(fetched, chosen, n, summaries, maxTokens - tokens);
    assert chosen[..|chosen|] == chosen;
  }

  lemma NothingYet(chosen: seq<RetrievedChunk>, summaries: string -> Lookup, maxTokens: int)
    requires TotalTokens(chosen) <= maxTokens
    ensures Looking(chosen, summaries, maxTokens, 0, {}, [], TotalTokens(chosen))
  {
    assert chosen[..0] == [];
  }

  method AddSummaries(chosen: seq<RetrievedChunk>, summaries: string -> Lookup, maxTokens: int)
    returns (fetched: seq<Fetched>, tokens: nat)
    requires TotalTokens(chosen) <= maxTokens
    ensures Genuine(fetched, DocumentsIn(chosen), summaries) && |fetched| <= MAX_SUMMARIES
    ensures tokens == TotalTokens(chosen) + Total(fetched, FetchedTokens) <= maxTokens
    ensures |fetched| < MAX_SUMMARIES ==> Settled(fetched, DocumentsIn(chosen), summaries, maxTokens - tokens)
    ensures InOrder(fetched, chosen) && StoppedWell(fetched, chosen, summaries, maxTokens - tokens)
  {
    fetched, tokens := [], TotalTokens(chosen);
    var seen := {};
    NothingYet(chosen, summaries, maxTokens);
    for i := 0 to |chosen|
      invariant |fetched| < MAX_SUMMARIES
      invariant Looking(chosen, summaries, maxTokens, i, seen, fetched, tokens)
    {
      seen, fetched, tokens := LookAt(chosen, summaries, maxTokens, i, seen, fetched, tokens);
      if |fetched| >= MAX_SUMMARIES {
        LookedEnough(chosen, summaries, maxTokens, i + 1, seen, fetched, tokens);
        return;
      }
    }
    LookedEnough(chosen, summaries, maxTokens, |chosen|, seen, fetched, tokens);
  }

  /** The context a successful search leads to: the hits chosen, the summaries added to them. */
  datatype MCPContext = MCPContext(chunks: seq<RetrievedChunk>, totalTokens: nat, steps: nat)

  /** What the second step adds, when there is one: at most three summaries, each for a different document
      of the chosen hits, in their order; and if fewer than three were added every other document was passed
      over for want of a summary or of room. */
  ghost predicate Summarised(chosen: seq<RetrievedChunk>, fetched: seq<Fetched>, total: int, steps: nat,
                             summaries: string -> Lookup, maxTokens: int, maxSteps: int) {
    && total == TotalTokens(chosen) + Total(fetched, FetchedTokens)
    && Genuine(fetched, DocumentsIn(chosen), summaries) && |fetched| <= MAX_SUMMARIES
    && (if WantsSummaries(chosen, maxTokens, maxSteps)
        then && steps == 2 && InOrder(fetched, chosen)
             && StoppedWell(fetched, chosen, summaries, maxTokens - total)
             && (|fetched| < MAX_SUMMARIES ==> Settled(fetched, DocumentsIn(chosen), summaries, maxTokens - total))
        else steps == 1 && fetched == [])
  }

  /** The result is the greedy choice of hits followed by the summaries, with recorded tokens within the
      limit. */
  ghost predicate Retrieves(r: MCPContext, fetched: seq<Fetched>, hits: seq<RetrievedChunk>,
                            summaries: string -> Lookup, maxTokens: int, maxSteps: int) {
    var chosen := Greedy(hits, ChunkTokens, maxTokens);
    && r.chunks == chosen + AsChunks(fetched)
    && Summarised(chosen, fetched, r.totalTokens, r.steps, summaries, maxTokens, maxSteps)
    && r.totalTokens <= (if maxTokens < 0 then 0 else maxTokens)
  }

  /** The second step. */
  method Summarise(chosen: seq<RetrievedChunk>, summaries: string -> Lookup, maxTokens: int, maxSteps: int, tokens: nat)
    returns (fetched: seq<Fetched>, total: nat, steps: nat)
    requires tokens == TotalTokens(chosen) && (chosen != [] ==> tokens <= maxTokens)
    ensures Summarised(chosen, fetched, total, steps, summaries, maxTokens, maxSteps)
    ensures total == tokens || total <= maxTokens
  {
    if tokens < Quotient(maxTokens * 80, 100) && |chosen| > 0 && maxSteps > 1 {
      fetched, total := AddSummaries(chosen, summaries, maxTokens);
      return fetched, total, 2;
    }
    return [], tokens, 1;
  }

  lemma NothingOverLimit(hits: seq<RetrievedChunk>, maxTokens: int)
    ensures TotalTokens(Greedy(hits, ChunkTokens, maxTokens)) <= if maxTokens < 0 then 0 else maxTokens
    ensures Greedy(hits, ChunkTokens, maxTokens) != [] ==> maxTokens >= 0
  {
    GreedyBounds(hits, ChunkTokens, maxTokens);
    if maxTokens < 0 {
      GreedyNothing(hits, ChunkTokens, maxTokens);
    }
  }

  /** The recorded tokens never exceed the limit. */
  method RetrieveMCPContext(hits: seq<RetrievedChunk>, summaries: string -> Lookup, maxTokens: int, maxSteps: int)
    returns (r: MCPContext, fetched: seq<Fetched>)
    ensures Retrieves(r, fetched, hits, summaries, maxTokens, maxSteps)
    ensures r.totalTokens <= if maxTokens < 0 then 0 else maxTokens
  {
    var chosen, tokens := TakeWhatFits(hits, ChunkTokens, maxTokens);
    NothingOverLimit(hits, maxTokens);
    var total, steps;
    fetched, total, steps := Summarise(chosen, summaries, maxTokens, maxSteps, tokens);
    r := MCPContext(chosen + AsChunks(fetched), total, steps);
  }

  /** Every hit left out was larger than the room the search step left. */
  lemma SkippedHitsAreTooLarge(hits: seq<RetrievedChunk>, maxTokens: int, c: RetrievedChunk)
    requires c in hits && c !in Greedy(hits, ChunkTokens, maxTokens)
    ensures ChunkTokens(c) > maxTokens - TotalTokens(Greedy(hits, ChunkTokens, maxTokens))
  {
    GreedyBounds(hits, ChunkTokens, maxTokens);
  }

  /** What the title adds to a summary's tokens: the nineteen bytes complete one more token unless the
      summary ends on a full one. */
  function TitleTokens(f: Fetched): nat { if Bytes(f.text) % 4 == 0 then 4 else 5 }

  lemma TitleIsAscii()
    ensures |SUMMARY_TITLE| == 19 && Ascii(SUMMARY_TITLE)
  {
    var a, b, c := "[Docum", "ent Summ", "ary]\n";
    assert Ascii(a) && Ascii(b) && Ascii(c);
    assert a + b + c == SUMMARY_TITLE;
  }

  lemma TitleCost(f: Fetched)
    ensures ChunkTokens(SummaryChunk(f.doc, f.text)) == FetchedTokens(f) + TitleTokens(f)
  {
    TitleIsAscii();
    AsciiBytes(SUMMARY_TITLE);
    BytesConcat(SUMMARY_TITLE, f.text);
  }

  /** The tokens of the titles are not recorded. */
  lemma {:induction false} TitlesAreUncounted(fetched: seq<Fetched>)
    ensures |AsChunks(fetched)| == |fetched|
    ensures TotalTokens(AsChunks(fetched)) == Total(fetched, FetchedTokens) + Total(fetched, TitleTokens)
    ensures Total(fetched, TitleTokens) <= 5 * |fetched|
  {
    if fetched != [] {
      var init, f := fetched[..|fetched| - 1], fetched[|fetched| - 1];
      TitlesAreUncounted(init);
      assert AsChunks(fetched)[..|init|] == AsChunks(init);
      TitleCost(f);
    }
  }

  /** Estimated again, all returned chunks exceed the limit by at most fifteen tokens. */
  lemma ReestimateBound(hits: seq<RetrievedChunk>, fetched: seq<Fetched>, maxTokens: int)
    requires |fetched| <= MAX_SUMMARIES
    requires TotalTokens(Greedy(hits, ChunkTokens, maxTokens)) + Total(fetched, FetchedTokens) <= maxTokens
    ensures TotalTokens(Greedy(hits, ChunkTokens, maxTokens) + AsChunks(fetched)) <= maxTokens + 15
  {
    TitlesAreUncounted(fetched);
    TotalConcat(Greedy(hits, ChunkTokens, maxTokens), AsChunks(fetched), ChunkTokens);
  }

  /** What the chunks of a result weigh, estimated again: what is recorded and the titles. So a result
      stays within a limit exactly when these do. */
  lemma ReestimateIs(r: MCPContext, fetched: seq<Fetched>, hits: seq<RetrievedChunk>, summaries: string -> Lookup,
                     maxTokens: int, maxSteps: int)
    requires Retrieves(r, fetched, hits, summaries, maxTokens, maxSteps)
    ensures TotalTokens(r.chunks) == r.totalTokens + Total(fetched, TitleTokens)
    ensures TotalTokens(r.chunks) <= maxTokens <==> r.totalTokens + Total(fetched, TitleTokens) <= maxTokens
  {
    TitlesAreUncounted(fetched);
    TotalConcat(Greedy(hits, ChunkTokens, maxTokens), AsChunks(fetched), ChunkTokens);
  }

  // ---- the fifteen tokens are reached ----

  /** An empty hit of a document. */
  function EmptyHit(doc: string): RetrievedChunk {
    RetrievedChunk("id", doc, "", "", 0, 0, 0.0, "", map[])
  }

  function EmptyHits(): seq<RetrievedChunk> {
    [EmptyHit("a"), EmptyHit("b"), EmptyHit("c")]
  }

  /** The first document's summary uses up the tokens; each is a byte over a multiple of four. */
  function OddSummaries(maxTokens: nat): string -> Lookup {
    doc => Summary(seq(if doc == "a" then 4 * maxTokens + 1 else 1, _ => 's'))
  }

  function OddTokens(maxTokens: nat, doc: string): nat { if doc == "a" then maxTokens else 0 }

  lemma OddSizes(maxTokens: nat, doc: string)
    ensures EstimateTokenCount(OddSummaries(maxTokens)(doc).text) == OddTokens(maxTokens, doc)
    ensures ChunkTokens(SummaryChunk(doc, OddSummaries(maxTokens)(doc).text)) == OddTokens(maxTokens, doc) + 5
  {
    var text := OddSummaries(maxTokens)(doc).text;
    AsciiBytes(text);
    TitleCost(Fetched(doc, text));
  }

  lemma EmptyHitsChosen(maxTokens: nat)
    ensures Greedy(EmptyHits(), ChunkTokens, maxTokens) == EmptyHits() && TotalTokens(EmptyHits()) == 0
  {
    var hits := EmptyHits();
    var one, two := [hits[0]], [hits[0], hits[1]];
    TotalAppend([], hits[0], ChunkTokens);
    TotalAppend(one, hits[1], ChunkTokens);
    TotalAppend(two, hits[2], ChunkTokens);
    assert [] + [hits[0]] == one && one + [hits[1]] == two && two + [hits[2]] == hits;
    GreedyTakesAll(hits, ChunkTokens, maxTokens);
  }

  lemma EmptyHitsDocuments()
    ensures DocumentsIn(EmptyHits()) == {"a", "b", "c"}
  {
    var hits := EmptyHits();
    assert hits[0].documentID == "a" && hits[1].documentID == "b" && hits[2].documentID == "c";
  }

  /** What summaries of different documents record and weigh: the tokens of document a, if it is one of
      them, and five more for each. */
  lemma {:induction false} OddTotals(fetched: seq<Fetched>, maxTokens: nat)
    requires Genuine(fetched, {"a", "b", "c"}, OddSummaries(maxTokens))
    ensures Total(fetched, FetchedTokens) == if HasSummaryOf(fetched, "a") then maxTokens else 0
    ensures TotalTokens(AsChunks(fetched)) == Total(fetched, FetchedTokens) + 5 * |fetched|
  {
    if fetched != [] {
      var init, f := fetched[..|fetched| - 1], fetched[|fetched| - 1];
      OddTotals(init, maxTokens);
      OddSizes(maxTokens, f.doc);
      TotalAppend(AsChunks(init), SummaryChunk(f.doc, f.text), ChunkTokens);
      HasSummaryLast(fetched, "a");
    }
  }

  lemma HasSummaryLast(fetched: seq<Fetched>, doc: string)
    requires fetched != [] && forall i, j | 0 <= i < j < |fetched| :: fetched[i].doc != fetched[j].doc
    ensures var init, f := fetched[..|fetched| - 1], fetched[|fetched| - 1];
            && (HasSummaryOf(fetched, doc) <==> HasSummaryOf(init, doc) || f.doc == doc)
            && !(HasSummaryOf(init, doc) && f.doc == doc)
  {
    var init := fetched[..|fetched| - 1];
    if HasSummaryOf(init, doc) {
      var i :| 0 <= i < |init| && init[i].doc == doc;
      assert fetched[i].doc == doc;
    }
  }

  /** At every limit from two on some retrieval's chunks, estimated again, exceed it by exactly fifteen. */
  lemma ReestimateIsReached(r: MCPContext, fetched: seq<Fetched>, maxTokens: int, maxSteps: int)
    requires maxTokens >= 2 && maxSteps > 1
    requires Retrieves(r, fetched, EmptyHits(), OddSummaries(maxTokens), maxTokens, maxSteps)
    ensures r.totalTokens == maxTokens && TotalTokens(r.chunks) == maxTokens + 15
  {
    EmptyHitsChosen(maxTokens);
    EmptyHitsDocuments();
    OddTotals(fetched, maxTokens);
    TotalConcat(EmptyHits(), AsChunks(fetched), ChunkTokens);
    AllFetched(fetched, maxTokens);
  }

  lemma ThreeAtLeast(fetched: seq<Fetched>)
    requires HasSummaryOf(fetched, "a") && HasSummaryOf(fetched, "b") && HasSummaryOf(fetched, "c")
    ensures |fetched| >= 3
  {
    var a :| 0 <= a < |fetched| && fetched[a].doc == "a";
    var b :| 0 <= b < |fetched| && fetched[b].doc == "b";
    var c :| 0 <= c < |fetched| && fetched[c].doc == "c";
  }

  /** Three different documents out of three are all of them. */
  lemma OneIsFirst(fetched: seq<Fetched>, maxTokens: nat)
    requires |fetched| == 3 && Genuine(fetched, {"a", "b", "c"}, OddSummaries(maxTokens))
    ensures HasSummaryOf(fetched, "a")
  {
    var x, y, z := fetched[0].doc, fetched[1].doc, fetched[2].doc;
    assert x in {"a", "b", "c"} && y in {"a", "b", "c"} && z in {"a", "b", "c"};
    assert x != y && y != z && x != z;
  }

  /** A document without its summary is not settled while there is room for it. */
  lemma MustHave(fetched: seq<Fetched>, maxTokens: nat, doc: string)
    requires Genuine(fetched, {"a", "b", "c"}, OddSummaries(maxTokens)) && doc in {"a", "b", "c"}
    requires Settled(fetched, {"a", "b", "c"}, OddSummaries(maxTokens), maxTokens - Total(fetched, FetchedTokens))
    ensures HasSummaryOf(fetched, doc)
  {
    OddTotals(fetched, maxTokens);
    OddSizes(maxTokens, doc);
    OddSizes(maxTokens, "a");
  }

  /** With room for all three summaries, all three are there. */
  lemma AllFetched(fetched: seq<Fetched>, maxTokens: nat)
    requires |fetched| <= MAX_SUMMARIES && Genuine(fetched, {"a", "b", "c"}, OddSummaries(maxTokens))
    requires |fetched| < MAX_SUMMARIES ==>
               Settled(fetched, {"a", "b", "c"}, OddSummaries(maxTokens), maxTokens - Total(fetched, FetchedTokens))
    ensures |fetched| == 3 && HasSummaryOf(fetched, "a")
  {
    if |fetched| == 3 {
      OneIsFirst(fetched, maxTokens);
    } else {
      MustHave(fetched, maxTokens, "a");
      MustHave(fetched, maxTokens, "b");
      MustHave(fetched, maxTokens, "c");
      ThreeAtLeast(fetched);
    }
  }

  // ---- exactly how large results get ----

  /** Whether the configuration ever lets summaries be added. */
  predicate MayAddSummaries(maxTokens: int, maxSteps: int) {
    maxSteps > 1 && maxTokens > 1
  }

  /** The most that the chunks of a result can weigh, estimated again. */
  function Most(maxTokens: int, maxSteps: int): int {
    (if maxTokens < 0 then 0 else maxTokens) + if MayAddSummaries(maxTokens, maxSteps) then 15 else 0
  }

  lemma WithinMost(r: MCPContext, fetched: seq<Fetched>, hits: seq<RetrievedChunk>, summaries: string -> Lookup,
                   maxTokens: int, maxSteps: int)
    requires Retrieves(r, fetched, hits, summaries, maxTokens, maxSteps)
    ensures TotalTokens(r.chunks) <= Most(maxTokens, maxSteps)
  {
    ReestimateIs(r, fetched, hits, summaries, maxTokens, maxSteps);
    TitlesAreUncounted(fetched);
    GreedyBounds(hits, ChunkTokens, maxTokens);
  }

  function NoLookup(): string -> Lookup { doc => NoSummary }

  /** One hit that uses up the limit. */
  function FullHit(maxTokens: nat): RetrievedChunk {
    EmptyHit("a").(content := seq(4 * maxTokens, _ => 'h'))
  }

  lemma FullHitReaches(maxTokens: nat, maxSteps: int) returns (r: MCPContext)
    ensures Retrieves(r, [], [FullHit(maxTokens)], NoLookup(), maxTokens, maxSteps)
    ensures r.totalTokens == TotalTokens(r.chunks) == maxTokens
  {
    var hits := [FullHit(maxTokens)];
    AsciiBytes(hits[0].content);
    assert [] + hits == hits;
    TotalAppend([], hits[0], ChunkTokens);
    GreedyTakesAll(hits, ChunkTokens, maxTokens);
    r := MCPContext(hits + AsChunks([]), maxTokens, 1);
    assert hits + [] == hits;
  }

  lemma NothingReaches(maxTokens: int, maxSteps: int) returns (r: MCPContext)
    ensures Retrieves(r, [], [], NoLookup(), maxTokens, maxSteps)
    ensures r.totalTokens == TotalTokens(r.chunks) == 0
  {
    r := MCPContext([], 0, 1);
  }

  function OddFetched(maxTokens: nat): seq<Fetched> {
    var texts := OddSummaries(maxTokens);
    [Fetched("a", texts("a").text), Fetched("b", texts("b").text), Fetched("c", texts("c").text)]
  }

  lemma OddStops(maxTokens: nat)
    ensures HasSummaryOf(OddFetched(maxTokens), "a")
    ensures InOrder(OddFetched(maxTokens), EmptyHits())
    ensures StoppedWell(OddFetched(maxTokens), EmptyHits(), OddSummaries(maxTokens), 0)
  {
    var fetched, hits := OddFetched(maxTokens), EmptyHits();
    EmptyHitsDocuments();
    assert fetched[0].doc == "a" && fetched[1].doc == "b" && fetched[2].doc == "c";
    assert hits[..3] == hits;
    assert forall i, p: nat | 0 <= i < 3 && FirstAt(hits, DocumentID, fetched[i].doc, p) :: p == i by {
      assert DocumentID(hits[0]) == "a" && DocumentID(hits[1]) == "b" && DocumentID(hits[2]) == "c";
    }
    assert LookedThrough(fetched, hits, 3, OddSummaries(maxTokens), 0);
  }

  lemma OddReaches(maxTokens: nat, maxSteps: int) returns (r: MCPContext)
    requires maxTokens > 1 && maxSteps > 1
    ensures Retrieves(r, OddFetched(maxTokens), EmptyHits(), OddSummaries(maxTokens), maxTokens, maxSteps)
    ensures r.totalTokens == maxTokens && TotalTokens(r.chunks) == maxTokens + 15
  {
    var fetched := OddFetched(maxTokens);
    EmptyHitsChosen(maxTokens);
    EmptyHitsDocuments();
    assert Genuine(fetched, {"a", "b", "c"}, OddSummaries(maxTokens));
    OddTotals(fetched, maxTokens);
    OddStops(maxTokens);
    r := MCPContext(EmptyHits() + AsChunks(fetched), maxTokens, 2);
    ReestimateIsReached(r, fetched, maxTokens, maxSteps);
  }

  /** All results of a configuration, estimated again, stay within the bound. */
  ghost predicate AllWithin(maxTokens: int, maxSteps: int, bound: int) {
    forall r, fetched, hits, summaries | Retrieves(r, fetched, hits, summaries, maxTokens, maxSteps) ::
      TotalTokens(r.chunks) <= bound
  }

  /** Exactly how large they get: all results of a configuration stay within a bound if and only if the
      limit does, with fifteen tokens more when summaries may be added. */
  lemma ReestimateExactly(maxTokens: int, maxSteps: int, bound: int)
    ensures AllWithin(maxTokens, maxSteps, bound) <==> Most(maxTokens, maxSteps) <= bound
  {
    if Most(maxTokens, maxSteps) <= bound {
      forall r, fetched, hits, summaries | Retrieves(r, fetched, hits, summaries, maxTokens, maxSteps)
        ensures TotalTokens(r.chunks) <= bound
      {
        WithinMost(r, fetched, hits, summaries, maxTokens, maxSteps);
      }
    } else if MayAddSummaries(maxTokens, maxSteps) {
      var r := OddReaches(maxTokens, maxSteps);
    } else if maxTokens >= 0 {
      var r := FullHitReaches(maxTokens, maxSteps);
    } else {
      var r := NothingReaches(maxTokens, maxSteps);
    }
  }

  /** So for limits from 0 on the chunks of every result stay within the limit itself exactly when no
      second step is allowed or the limit is at most one token. */
  lemma ReestimateFitsExactly(maxTokens: int, maxSteps: int)
    requires maxTokens >= 0
    ensures AllWithin(maxTokens, maxSteps, maxTokens) <==> maxSteps <= 1 || maxTokens <= 1
  {
    ReestimateExactly(maxTokens, maxSteps, maxTokens);
  }
}
