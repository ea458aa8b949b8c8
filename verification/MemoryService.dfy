/** The unified memory service: one token budget split over three kinds of memory. */
module MemoryService {
  import opened Text
  import opened Budgets
  import opened Chunks
  import opened Sessions
  import opened Trimming
  import ST = ShortTerm
  import WM = WorkingMemory

  datatype LongTermEntry = LongTermEntry(content: string, tokenCount: nat)

  function LongTermTokens(e: LongTermEntry): nat { e.tokenCount }

  /** A search that may fail. */
  datatype SearchResult = SearchFailed | Found(entries: seq<LongTermEntry>)

  /** What goes into the context. The formatted strings are left out in favour of what they format. */
  datatype MemoryContext = MemoryContext(
    shortTerm: seq<ST.MemoryEntry>,
    working: seq<RetrievedChunk>,
    longTerm: seq<LongTermEntry>,
    totalTokens: int,
    truncated: bool)

  function ShortTermBudget(budget: int): int { Quotient(budget, 2) }
  function WorkingBudget(budget: int): int { Quotient(budget * 35, 100) }
  function LongTermBudget(budget: int): int { Quotient(budget * 15, 100) }

  /** The floors of half, 35 and 15 per cent never add up to more than the whole. */
  lemma SplitFits(budget: int)
    ensures budget >= 0 ==> ShortTermBudget(budget) + WorkingBudget(budget) + LongTermBudget(budget) <= budget
    ensures budget >= 0 ==> ShortTermBudget(budget) >= 0 && WorkingBudget(budget) >= 0 && LongTermBudget(budget) >= 0
    ensures budget < 0 ==> ShortTermBudget(budget) <= 0 && WorkingBudget(budget) <= 0 && LongTermBudget(budget) <= 0
  {
  }

  /** Each share is the largest whole number within its part of the budget, toward zero: a half, 35 and 15
      hundredths. */
  lemma SplitIsExact(budget: int)
    ensures budget >= 0 ==> 2 * ShortTermBudget(budget) <= budget < 2 * (ShortTermBudget(budget) + 1)
    ensures budget >= 0 ==> 100 * WorkingBudget(budget) <= 35 * budget < 100 * (WorkingBudget(budget) + 1)
    ensures budget >= 0 ==> 100 * LongTermBudget(budget) <= 15 * budget < 100 * (LongTermBudget(budget) + 1)
    ensures ShortTermBudget(-budget) == -ShortTermBudget(budget)
    ensures WorkingBudget(-budget) == -WorkingBudget(budget)
    ensures LongTermBudget(-budget) == -LongTermBudget(budget)
  {
  }

  /** A long-term entry counts with its own token count. */
  lemma TokensAddUp(entries: seq<LongTermEntry>, e: LongTermEntry)
    ensures Total([], LongTermTokens) == 0
    ensures Total(entries + [e], LongTermTokens) == Total(entries, LongTermTokens) + e.tokenCount
  {
    TotalAppend(entries, e, LongTermTokens);
  }

  /** The request: a session or none, a query or none, and which store operations succeed. */
  datatype Request = Request(key: SessionKey, query: string, conversationOk: bool, trimOk: bool, workingOk: bool)

  class MemoryServiceImpl {
    const shortTerm: ST.ShortTermMemoryService
    const working: WM.WorkingMemoryService
    const longTermEnabled: bool

    constructor (shortTerm: ST.ShortTermMemoryService, working: WM.WorkingMemoryService, longTermEnabled: bool)
      ensures this.shortTerm == shortTerm && this.working == working && this.longTermEnabled == longTermEnabled
    {
      this.shortTerm := shortTerm;
      this.working := working;
      this.longTermEnabled := longTermEnabled;
    }

    ghost predicate Valid()
      reads this, shortTerm, working
    {
      shortTerm.Valid() && working.Valid()
    }

    predicate UsesConversation(req: Request) { req.key.sessionID != "" && req.conversationOk }
    predicate UsesWorking(req: Request) { req.key.sessionID != "" && req.workingOk }
    predicate UsesLongTerm(req: Request, search: SearchResult) { longTermEnabled && req.query != "" && search.Found? }

    /** What the conversation should be after the call. */
    ghost function Trimmed(req: Request, entries: seq<ST.MemoryEntry>, budget: int): seq<ST.MemoryEntry> {
      if UsesConversation(req) && req.trimOk then KeepTokens(entries, ST.TokenCount, budget) else entries
    }

    /** The conversation for the context, trimmed in the store when it is over its budget. */
    method TakeConversation(req: Request, budget: int) returns (entries: seq<ST.MemoryEntry>, total: nat)
      requires Valid()
      modifies shortTerm`store
      ensures Valid()
      ensures total == Total(entries, ST.TokenCount)
      ensures shortTerm.Entries(req.key) == Trimmed(req, old(shortTerm.Entries(req.key)), budget)
      ensures entries == if UsesConversation(req) then shortTerm.Entries(req.key) else []
      ensures forall k | k != req.key :: shortTerm.Entries(k) == old(shortTerm.Entries(k))
    {
      if req.key.sessionID == "" || !req.conversationOk {
        return [], 0;
      }
      var c := shortTerm.GetConversation(req.key);
      if c.totalTokens > budget {
        var ok := shortTerm.TrimToTokenLimit(req.key, budget, true, req.trimOk);
        if ok {
          c := shortTerm.GetConversation(req.key);
        }
      }
      return c.entries, c.totalTokens;
    }

    /** Working memory is taken whole or not at all. */
    method TakeWorking(req: Request, budget: int) returns (chunks: seq<RetrievedChunk>, total: nat)
      requires Valid()
      ensures total == TotalTokens(chunks)
      ensures var memory := working.Current(req.key);
              chunks == if UsesWorking(req) && TotalTokens(memory.chunks) <= budget then memory.chunks else []
    {
      if req.key.sessionID != "" && req.workingOk {
        var memory := working.GetWorkingMemory(req.key);
        if memory.totalTokens <= budget {
          return memory.chunks, memory.totalTokens;
        }
      }
      return [], 0;
    }

    /** Long-term entries in order until one does not fit. */
    method TakeLongTerm(found: seq<LongTermEntry>, budget: int) returns (taken: seq<LongTermEntry>, total: nat)
      ensures LongestPrefix(taken, found, LongTermTokens, budget)
      ensures total == Total(taken, LongTermTokens)
    {
      taken, total := TakeWhileFits(found, LongTermTokens, budget);
    }

    /** Composition of the budgets. When trimming works, the context is over budget, hence reported as
        truncated, only for a negative budget. The stored conversation is left as the part of it that
        fits the half; working memory is all or nothing; long-term memory is the longest prefix that
        fits. When trimming fails, only the conversation can push the context over. */
    method GetFormattedMemory(req: Request, tokenBudget: int, search: SearchResult) returns (r: MemoryContext)
      requires Valid()
      modifies shortTerm`store
      ensures Valid()
      ensures r.totalTokens
           == Total(r.shortTerm, ST.TokenCount) + TotalTokens(r.working) + Total(r.longTerm, LongTermTokens)
      ensures r.truncated == (r.totalTokens > tokenBudget)
      ensures req.trimOk ==> r.truncated == (tokenBudget < 0)
      ensures tokenBudget >= 0 ==>
                r.totalTokens
                <= Total(r.shortTerm, ST.TokenCount) + WorkingBudget(tokenBudget) + LongTermBudget(tokenBudget)
      // short-term memory
      ensures shortTerm.Entries(req.key) == Trimmed(req, old(shortTerm.Entries(req.key)), ShortTermBudget(tokenBudget))
      ensures r.shortTerm == if UsesConversation(req) then shortTerm.Entries(req.key) else []
      ensures forall k | k != req.key :: shortTerm.Entries(k) == old(shortTerm.Entries(k))
      // working memory
      ensures var chunks := working.Current(req.key).chunks;
              r.working == if UsesWorking(req) && TotalTokens(chunks) <= WorkingBudget(tokenBudget) then chunks else []
      // long-term memory
      ensures if UsesLongTerm(req, search)
              then LongestPrefix(r.longTerm, search.entries, LongTermTokens, LongTermBudget(tokenBudget))
              else r.longTerm == []
    {
      ghost var before := shortTerm.Entries(req.key);
      var entries, total := TakeConversation(req, ShortTermBudget(tokenBudget));
      var chunks, workingTotal := TakeWorking(req, WorkingBudget(tokenBudget));
      total := total + workingTotal;
      var longTerm: seq<LongTermEntry> := [];
      if longTermEnabled && req.query != "" && search.Found? && |search.entries| > 0 {
        var longTermTotal;
        longTerm, longTermTotal := TakeLongTerm(search.entries, LongTermBudget(tokenBudget));
        total := total + longTermTotal;
      }
      r := MemoryContext(entries, chunks, longTerm, total, total > tokenBudget);
      PartsFit(req, before, entries, chunks, longTerm, search, tokenBudget);
    }

    /** The parts against their budgets. */
    lemma PartsFit(req: Request, before: seq<ST.MemoryEntry>, entries: seq<ST.MemoryEntry>, chunks: seq<RetrievedChunk>,
                   longTerm: seq<LongTermEntry>, search: SearchResult, tokenBudget: int)
      requires entries == if UsesConversation(req) then Trimmed(req, before, ShortTermBudget(tokenBudget)) else []
      requires chunks == [] || TotalTokens(chunks) <= WorkingBudget(tokenBudget)
      requires longTerm == [] || Total(longTerm, LongTermTokens) <= LongTermBudget(tokenBudget)
      ensures var total := Total(entries, ST.TokenCount) + TotalTokens(chunks) + Total(longTerm, LongTermTokens);
              && (req.trimOk ==> (total > tokenBudget <==> tokenBudget < 0))
              && (tokenBudget >= 0 ==>
                    total <= Total(entries, ST.TokenCount) + WorkingBudget(tokenBudget) + LongTermBudget(tokenBudget))
    {
      SplitFits(tokenBudget);
      KeepTokensBounds(before, ST.TokenCount, Limits(|before|, 0), ShortTermBudget(tokenBudget));
      assert Total<ST.MemoryEntry>([], ST.TokenCount) == 0 && Total<LongTermEntry>([], LongTermTokens) == 0;
      assert TotalTokens([]) == 0;
    }

    /** A new entry, its tokens estimated from its content, goes to short-term memory. */
    method AddMemory(key: SessionKey, role: string, content: string, newID: string, now: int, storeOk: bool)
      returns (ok: bool)
      requires Valid() && newID != "" && now != 0
      modifies shortTerm`store
      ensures Valid()
      ensures ok == storeOk
      ensures !ok ==> shortTerm.store == old(shortTerm.store)
      ensures var entry := ST.MemoryEntry(newID, role, content, EstimateTokenCount(content), now);
              ok ==> shortTerm.Entries(key)
                     == Keep(old(shortTerm.Entries(key)) + [entry], ST.TokenCount, shortTerm.limits)
      ensures forall k | k != key :: shortTerm.Entries(k) == old(shortTerm.Entries(k))
    {
      var entry := ST.MemoryEntry(newID, role, content, EstimateTokenCount(content), now);
      ok := shortTerm.AddMessage(key, entry, newID, now, true, storeOk);
    }

    /** Short-term memory goes first; if that fails, or the second clear does, working memory is not touched. */
    method ClearSession(key: SessionKey, shortTermOk: bool, workingOk: bool) returns (ok: bool)
      requires Valid()
      modifies shortTerm`store, working`store
      ensures Valid()
      ensures ok == (shortTermOk && workingOk)
      ensures shortTermOk ==> shortTerm.Entries(key) == []
      ensures !shortTermOk ==> shortTerm.store == old(shortTerm.store) && working.store == old(working.store)
      ensures ok ==> working.Current(key) == WM.EMPTY
      ensures !workingOk ==> working.store == old(working.store)
      ensures forall k | k != key ::
                shortTerm.Entries(k) == old(shortTerm.Entries(k)) && working.Current(k) == old(working.Current(k))
    {
      ok := shortTerm.ClearConversation(key, shortTermOk);
      if !ok {
        return false;
      }
      ok := working.ClearWorkingMemory(key, workingOk);
    }
  }

  /** After any run of messages with no explicit trim since the last clear, GetFormattedMemory leaves,
      and shows, the longest suffix of the whole history within the entry limit, the configured token
      limit and half the budget. */
  lemma ContextIsLongestSuffix(limits: Limits, ops: seq<ST.Operation<ST.MemoryEntry>>, tokenBudget: int, half: int)
    requires ST.NeverTrimmed(ops) && half == ShortTermBudget(tokenBudget)
    ensures KeepTokens(ST.Run(limits, ST.TokenCount, ops), ST.TokenCount, half)
         == Keep(ST.History(ops), ST.TokenCount,
                 limits.(maxTokens := if half < limits.maxTokens then half else limits.maxTokens))
  {
    assert (ops + [ST.TrimTo(half)])[..|ops|] == ops;
    ST.TrimAfterRun(limits, ST.TokenCount, ops, half);
  }
}
