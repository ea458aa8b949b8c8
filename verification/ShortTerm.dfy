/** The short-term conversation buffer, one conversation a session and agent. */
module ShortTerm {
  import opened Budgets
  import opened Sessions
  import opened Trimming

  datatype MemoryEntry = MemoryEntry(id: string, role: string, content: string, tokenCount: nat, timestamp: int)

  function TokenCount(e: MemoryEntry): nat { e.tokenCount }

  /** A message as it is stored: a missing ID and an unset timestamp are filled in. */
  function Stamped(e: MemoryEntry, newID: string, now: int): MemoryEntry {
    var timed := if e.timestamp == 0 then e.(timestamp := now) else e;
    if timed.id == "" then timed.(id := newID) else timed
  }

  /** What is given stays as given; what is missing is filled in. */
  lemma StampedMeans(e: MemoryEntry, newID: string, now: int)
    ensures var stored := Stamped(e, newID, now);
            && stored.role == e.role && stored.content == e.content && stored.tokenCount == e.tokenCount
            && stored.id == (if e.id == "" then newID else e.id)
            && stored.timestamp == (if e.timestamp == 0 then now else e.timestamp)
  {
  }

  /** A message counts with its own token count. */
  lemma TokensAddUp(entries: seq<MemoryEntry>, e: MemoryEntry)
    ensures Total([], TokenCount) == 0 && Total(entries + [e], TokenCount) == Total(entries, TokenCount) + e.tokenCount
  {
    TotalAppend(entries, e, TokenCount);
  }

  // ---- what one operation does to a conversation ----

  datatype Operation<T> = Add(entry: T) | TrimTo(maxTokens: int) | Clear | Expire

  function Step<T>(limits: Limits, w: T -> nat, entries: seq<T>, op: Operation<T>): seq<T> {
    match op
    case Add(e) => Keep(entries + [e], w, limits)
    case TrimTo(m) => KeepTokens(entries, w, m)
    case Clear => []
    case Expire => []
  }

  function Run<T>(limits: Limits, w: T -> nat, ops: seq<Operation<T>>): seq<T> {
    if ops == [] then [] else Step(limits, w, Run(limits, w, ops[..|ops| - 1]), ops[|ops| - 1])
  }

  /** The whole message history since the last clear or expiry. */
  function History<T>(ops: seq<Operation<T>>): seq<T> {
    if ops == [] then []
    else
      match ops[|ops| - 1]
      case Add(e) => History(ops[..|ops| - 1]) + [e]
      case TrimTo(_) => History(ops[..|ops| - 1])
      case Clear => []
      case Expire => []
  }

  /** No explicit trim came after the last clear or expiry. */
  predicate NeverTrimmed<T>(ops: seq<Operation<T>>) {
    if ops == [] then true
    else
      match ops[|ops| - 1]
      case Add(_) => NeverTrimmed(ops[..|ops| - 1])
      case TrimTo(_) => false
      case Clear => true
      case Expire => true
  }

  /** Refinement: after any run, when no explicit trim came after the last clear or expiry, the entries
      are exactly the longest suffix of the whole history that meets both limits. */
  lemma {:induction false} RunIsLongestSuffix<T>(limits: Limits, w: T -> nat, ops: seq<Operation<T>>)
    requires NeverTrimmed(ops)
    ensures Run(limits, w, ops) == Keep(History(ops), w, limits)
  {
    if ops != [] {
      var init, op := ops[..|ops| - 1], ops[|ops| - 1];
      if op.Add? {
        RunIsLongestSuffix(limits, w, init);
        KeepIncremental(History(init), op.entry, w, limits);
      }
    }
  }

  /** With explicit trims anywhere in the run the entries are still a suffix of the history, hence in
      order and gapless, and still within both limits. */
  lemma {:induction false} RunIsSuffix<T>(limits: Limits, w: T -> nat, ops: seq<Operation<T>>)
    ensures SuffixOf(Run(limits, w, ops), History(ops))
    ensures Run(limits, w, ops) == [] || Meets(Run(limits, w, ops), w, limits)
  {
    if ops != [] {
      var init, op := ops[..|ops| - 1], ops[|ops| - 1];
      RunIsSuffix(limits, w, init);
      var before := Run(limits, w, init);
      match op
      case Add(e) =>
        KeepIsLongest(before + [e], w, limits);
        assert SuffixOf(before + [e], History(init) + [e]);
      case TrimTo(m) =>
        KeepTokensBounds(before, w, limits, m);
      case Clear =>
      case Expire =>
    }
  }

  /** A trim at the end of such a run leaves the longest suffix meeting the tighter token limit. */
  lemma TrimAfterRun<T>(limits: Limits, w: T -> nat, ops: seq<Operation<T>>, maxTokens: int)
    requires NeverTrimmed(ops)
    ensures Run(limits, w, ops + [TrimTo(maxTokens)])
         == Keep(History(ops), w,
                 limits.(maxTokens := if maxTokens < limits.maxTokens then maxTokens else limits.maxTokens))
  {
    assert (ops + [TrimTo(maxTokens)])[..|ops|] == ops;
    RunIsLongestSuffix(limits, w, ops);
    KeepThenTokens(History(ops), w, limits, maxTokens);
  }

  // ---- the service ----

  /** The store holds one conversation a key. A failing read or write of the store is a parameter of
      the call; it leaves the store as it was. */
  class ShortTermMemoryService {
    const limits: Limits
    var store: map<SessionKey, Conversation<MemoryEntry>>

    /** Every stored conversation has an exact total and respects both limits. */
    ghost predicate Valid()
      reads this
    {
      forall k | k in store ::
        && Exact(store[k], TokenCount)
        && (store[k].entries == [] || Meets(store[k].entries, TokenCount, limits))
    }

    function Entries(key: SessionKey): seq<MemoryEntry>
      reads this
    {
      if key in store then store[key].entries else []
    }

    constructor (limits: Limits)
      ensures Valid() && this.limits == limits
      ensures forall k :: Entries(k) == []
    {
      this.limits := limits;
      store := map[];
    }

    method GetConversation(key: SessionKey) returns (c: Conversation<MemoryEntry>)
      requires Valid()
      ensures c.entries == Entries(key) && Exact(c, TokenCount)
    {
      if key in store {
        c := store[key];
      } else {
        c := Conversation([], 0);
      }
    }

    method AddMessage(key: SessionKey, entry: MemoryEntry, newID: string, now: int, readOk: bool, writeOk: bool)
      returns (ok: bool)
      requires Valid()
      modifies this`store
      ensures Valid()
      ensures ok == (readOk && writeOk)
      ensures !ok ==> store == old(store)
      ensures ok ==> Entries(key) == Step(limits, TokenCount, old(Entries(key)), Add(Stamped(entry, newID, now)))
      ensures forall k | k != key :: Entries(k) == old(Entries(k))
    {
      if !readOk {
        return false;
      }
      var memory := GetConversation(key);
      var added := Stamped(entry, newID, now);
      TotalConcat(memory.entries, [added], TokenCount);
      assert Total([added], TokenCount) == added.tokenCount by {
        assert [added][..0] == [];
      }
      memory := Conversation(memory.entries + [added], memory.totalTokens + added.tokenCount);
      ghost var whole := memory.entries;
      if memory.totalTokens > limits.maxTokens || |memory.entries| > limits.maxEntries {
        memory := TrimMemory(memory, TokenCount, limits);
      }
      KeepIsLongest(whole, TokenCount, limits);
      if !writeOk {
        return false;
      }
      store := store[key := memory];
      return true;
    }

    method TrimToTokenLimit(key: SessionKey, maxTokens: int, readOk: bool, writeOk: bool) returns (ok: bool)
      requires Valid()
      modifies this`store
      ensures Valid()
      ensures ok == (readOk && (writeOk || Total(old(Entries(key)), TokenCount) <= maxTokens))
      ensures !ok ==> store == old(store)
      ensures ok ==> Entries(key) == Step(limits, TokenCount, old(Entries(key)), TrimTo(maxTokens))
      ensures forall k | k != key :: Entries(k) == old(Entries(k))
    {
      if !readOk {
        return false;
      }
      var memory := GetConversation(key);
      if memory.totalTokens <= maxTokens {
        return true;
      }
      KeepTokensBounds(memory.entries, TokenCount, limits, maxTokens);
      memory := TrimTokens(memory, TokenCount, maxTokens);
      if !writeOk {
        return false;
      }
      store := store[key := memory];
      return true;
    }

    /** The most recent entries, at most `limit` of them. */
    method GetRecentMessages(key: SessionKey, limit: nat) returns (recent: seq<MemoryEntry>)
      requires Valid()
      ensures SuffixOf(recent, Entries(key))
      ensures |recent| == if |Entries(key)| <= limit then |Entries(key)| else limit
    {
      var memory := GetConversation(key);
      if |memory.entries| <= limit {
        return memory.entries;
      }
      return memory.entries[|memory.entries| - limit..];
    }

    method ClearConversation(key: SessionKey, writeOk: bool) returns (ok: bool)
      requires Valid()
      modifies this`store
      ensures Valid()
      ensures ok == writeOk && (!ok ==> store == old(store))
      ensures ok ==> Entries(key) == Step(limits, TokenCount, old(Entries(key)), Clear) == []
      ensures forall k | k != key :: Entries(k) == old(Entries(k))
    {
      if writeOk {
        store := store - {key};
      }
      return writeOk;
    }

    /** The store dropping a conversation whose time to live is over. */
    method ExpireConversation(key: SessionKey)
      requires Valid()
      modifies this`store
      ensures Valid()
      ensures Entries(key) == Step(limits, TokenCount, old(Entries(key)), Expire) == []
      ensures forall k | k != key :: Entries(k) == old(Entries(k))
    {
      store := store - {key};
    }
  }
}
