/** Working memory: the documents and chunks a session has at hand. */
module WorkingMemory {
  import opened Budgets
  import opened Chunks
  import opened Keyed
  import opened Sessions
  import opened Similarity

  datatype LoadedDocument = LoadedDocument(documentID: string, documentName: string, loadedAt: int)

  datatype Memory = Memory(
    loaded: seq<LoadedDocument>,
    chunks: seq<RetrievedChunk>,
    totalTokens: int,
    lastQuery: string)

  const EMPTY := Memory([], [], 0, "")

  datatype MemoryLimits = MemoryLimits(maxTokens: int, maxLoaded: int)

  // ---- what one operation does ----

  /** The place of a document, or the number of documents. */
  function PlaceOf(docs: seq<LoadedDocument>, id: string): (i: nat)
    ensures i <= |docs|
    ensures i < |docs| ==> docs[i].documentID == id
    ensures forall j | 0 <= j < i :: docs[j].documentID != id
  {
    if docs == [] then 0
    else if PlaceOf(docs[..|docs| - 1], id) < |docs| - 1 then PlaceOf(docs[..|docs| - 1], id)
    else if docs[|docs| - 1].documentID == id then |docs| - 1
    else |docs|
  }

  predicate IsLoaded(docs: seq<LoadedDocument>, id: string) {
    PlaceOf(docs, id) < |docs|
  }

  /** A loaded document is replaced where it stands; a new one goes last, the oldest making room. */
  function Loading(docs: seq<LoadedDocument>, doc: LoadedDocument, now: int, max: int): seq<LoadedDocument>
    requires max >= 1
  {
    if IsLoaded(docs, doc.documentID) then docs[PlaceOf(docs, doc.documentID) := doc]
    else (if |docs| >= max then docs[1..] else docs) + [doc.(loadedAt := now)]
  }

  /** The chunks that are not of the document, in order. */
  function NotOf(chunks: seq<RetrievedChunk>, id: string): seq<RetrievedChunk> {
    if chunks == [] then []
    else
      var c := chunks[|chunks| - 1];
      NotOf(chunks[..|chunks| - 1], id) + if c.documentID != id then [c] else []
  }

  function DocumentOf(c: RetrievedChunk): string { c.documentID }

  /** The chunks of the document, in order. */
  function Of(chunks: seq<RetrievedChunk>, id: string): seq<RetrievedChunk> {
    AllWith(chunks, DocumentOf, id)
  }

  datatype Operation =
    | SetContext(chunks: seq<RetrievedChunk>)
    | Load(doc: LoadedDocument, now: int)
    | Unload(documentID: string)
    | UpdateQuery(query: string)
    | ClearAll

  function Step(limits: MemoryLimits, m: Memory, op: Operation): Memory
    requires limits.maxLoaded >= 1
  {
    match op
    case SetContext(chunks) =>
      var kept := PrefixWithin(chunks, ChunkTokens, limits.maxTokens);
      m.(chunks := kept, totalTokens := TotalTokens(kept))
    case Load(doc, now) => m.(loaded := Loading(m.loaded, doc, now, limits.maxLoaded))
    case Unload(id) =>
      if IsLoaded(m.loaded, id) then
        var i, rest := PlaceOf(m.loaded, id), NotOf(m.chunks, id);
        m.(loaded := m.loaded[..i] + m.loaded[i + 1..], chunks := rest, totalTokens := TotalTokens(rest))
      else m
    case UpdateQuery(query) => m.(lastQuery := query)
    case ClearAll => EMPTY
  }

  function Run(limits: MemoryLimits, ops: seq<Operation>): Memory
    requires limits.maxLoaded >= 1
  {
    if ops == [] then EMPTY else Step(limits, Run(limits, ops[..|ops| - 1]), ops[|ops| - 1])
  }

  // ---- what each operation changes, and what it leaves ----

  lemma {:induction false} NotOfInOrder(chunks: seq<RetrievedChunk>, id: string)
    ensures Subsequence(NotOf(chunks, id), chunks)
  {
    if chunks != [] {
      var init, c := chunks[..|chunks| - 1], chunks[|chunks| - 1];
      NotOfInOrder(init, id);
      if c.documentID != id {
        assert NotOf(chunks, id)[..|NotOf(chunks, id)| - 1] == NotOf(init, id);
      } else {
        assert NotOf(chunks, id) == NotOf(init, id);
      }
    }
  }

  /** What is left is what was there without the document's own chunks, in order. */
  ghost predicate LosesChunksOf(before: seq<RetrievedChunk>, after: seq<RetrievedChunk>, id: string) {
    && (forall c | c in after :: c.documentID != id)
    && Subsequence(after, before)
    && exists own: seq<RetrievedChunk> :: OnlyOf(own, id) && multiset(after) + multiset(own) == multiset(before)
  }

  ghost predicate OnlyOf(chunks: seq<RetrievedChunk>, id: string) {
    forall c | c in chunks :: c.documentID == id
  }

  /** What is left is what was there without one document, the only one of that ID, in order. */
  ghost predicate LosesDocument(before: seq<LoadedDocument>, after: seq<LoadedDocument>, id: string) {
    && (forall d | d in after :: d.documentID != id)
    && Subsequence(after, before)
    && exists d :: d in before && d.documentID == id && multiset(after) + multiset{d} == multiset(before)
  }

  lemma ChunksAreLost(chunks: seq<RetrievedChunk>, id: string)
    ensures LosesChunksOf(chunks, NotOf(chunks, id), id)
  {
    UnloadPartitions(chunks, id);
    NotOfInOrder(chunks, id);
    assert OnlyOf(Of(chunks, id), id);
  }

  lemma DocumentIsLost(docs: seq<LoadedDocument>, i: nat)
    requires DistinctDocuments(docs) && i < |docs|
    ensures LosesDocument(docs, docs[..i] + docs[i + 1..], docs[i].documentID)
  {
    assert Without(docs, i) == docs[..i] + docs[i + 1..];
    MultisetWithout(docs, i);
    WithoutInOrder(docs, i);
  }

  /** Unloading a loaded document takes its chunks and it, and nothing else, and recounts the tokens;
      unloading any other changes nothing. */
  lemma UnloadMeans(limits: MemoryLimits, m: Memory, id: string)
    requires limits.maxLoaded >= 1 && Sound(limits, m)
    ensures var after := Step(limits, m, Unload(id));
            if forall d | d in m.loaded :: d.documentID != id then after == m
            else
              && LosesChunksOf(m.chunks, after.chunks, id)
              && after.totalTokens == TotalTokens(after.chunks)
              && LosesDocument(m.loaded, after.loaded, id)
              && after.lastQuery == m.lastQuery
  {
    var i := PlaceOf(m.loaded, id);
    if i < |m.loaded| {
      assert m.loaded[i] in m.loaded;
      ChunksAreLost(m.chunks, id);
      DocumentIsLost(m.loaded, i);
    }
  }

  lemma {:induction false} WithoutInOrder(docs: seq<LoadedDocument>, i: nat)
    requires i < |docs|
    ensures Subsequence(Without(docs, i), docs)
  {
    var n := |docs| - 1;
    if i == n {
      assert Without(docs, i) == docs[..n];
      Itself(docs[..n]);
    } else {
      WithoutInOrder(docs[..n], i);
      assert Without(docs, i)[..n - 1] == Without(docs[..n], i);
    }
  }

  lemma {:induction false} Itself(docs: seq<LoadedDocument>)
    ensures Subsequence(docs, docs)
  {
    if docs != [] {
      Itself(docs[..|docs| - 1]);
    }
  }

  /** Setting the context holds the longest prefix of the given chunks within the limit, and leaves the
      documents and the query. Updating the query leaves all else. Clearing leaves nothing. */
  lemma SetMeans(limits: MemoryLimits, m: Memory, chunks: seq<RetrievedChunk>, query: string)
    requires limits.maxLoaded >= 1
    ensures var after := Step(limits, m, SetContext(chunks));
            && LongestPrefix(after.chunks, chunks, ChunkTokens, limits.maxTokens)
            && after.totalTokens == TotalTokens(after.chunks)
            && after.loaded == m.loaded && after.lastQuery == m.lastQuery
    ensures var after := Step(limits, m, UpdateQuery(query));
            after.lastQuery == query && after.loaded == m.loaded && after.chunks == m.chunks
            && after.totalTokens == m.totalTokens
    ensures var after := Step(limits, m, ClearAll);
            after.loaded == [] && after.chunks == [] && after.totalTokens == 0 && after.lastQuery == ""
  {
    PrefixWithinIsLongest(chunks, ChunkTokens, limits.maxTokens);
  }

  /** Loading leaves chunks, tokens and query. A document loaded before is replaced, as given, where it
      stood; a new one is put last, with the time of loading, and the first one goes if there were as many
      as may be. */
  lemma LoadMeans(limits: MemoryLimits, m: Memory, doc: LoadedDocument, now: int, i: nat)
    requires limits.maxLoaded >= 1 && Sound(limits, m)
    ensures var after := Step(limits, m, Load(doc, now));
            && after.chunks == m.chunks && after.totalTokens == m.totalTokens && after.lastQuery == m.lastQuery
            && (i < |m.loaded| && m.loaded[i].documentID == doc.documentID ==>
                  after.loaded == m.loaded[..i] + [doc] + m.loaded[i + 1..])
            && ((forall d | d in m.loaded :: d.documentID != doc.documentID) ==>
                  after.loaded == (if |m.loaded| == limits.maxLoaded then m.loaded[1..] else m.loaded)
                                  + [LoadedDocument(doc.documentID, doc.documentName, now)])
  {
    var p := PlaceOf(m.loaded, doc.documentID);
    if p < |m.loaded| {
      assert m.loaded[p] in m.loaded;
    }
    if i < |m.loaded| && m.loaded[i].documentID == doc.documentID {
      assert p == i;
    }
  }

  // ---- what every run keeps ----

  ghost predicate DistinctDocuments(docs: seq<LoadedDocument>) {
    forall i, j | 0 <= i < j < |docs| :: docs[i].documentID != docs[j].documentID
  }

  ghost predicate Sound(limits: MemoryLimits, m: Memory) {
    && DistinctDocuments(m.loaded)
    && |m.loaded| <= limits.maxLoaded
    && m.totalTokens == TotalTokens(m.chunks)
    && (m.chunks == [] || m.totalTokens <= limits.maxTokens)
  }

  /** What one more chunk adds to either side. */
  lemma PartsAppend(chunks: seq<RetrievedChunk>, c: RetrievedChunk, id: string)
    ensures Of(chunks + [c], id) == Of(chunks, id) + if c.documentID == id then [c] else []
    ensures NotOf(chunks + [c], id) == NotOf(chunks, id) + if c.documentID != id then [c] else []
  {
    assert (chunks + [c])[..|chunks|] == chunks;
  }

  lemma {:induction false} PartsMembers(chunks: seq<RetrievedChunk>, id: string)
    ensures forall c | c in NotOf(chunks, id) :: c.documentID != id
    ensures forall c | c in Of(chunks, id) :: c.documentID == id
  {
    if chunks != [] {
      PartsMembers(chunks[..|chunks| - 1], id);
    }
  }

  lemma {:induction false} PartsMultiset(chunks: seq<RetrievedChunk>, id: string)
    ensures multiset(NotOf(chunks, id)) + multiset(Of(chunks, id)) == multiset(chunks)
  {
    if chunks != [] {
      var init, c := chunks[..|chunks| - 1], chunks[|chunks| - 1];
      PartsMultiset(init, id);
      PartsAppend(init, c, id);
      assert chunks == init + [c];
    }
  }

  /** Unloading takes away exactly the document's own chunks. */
  lemma UnloadPartitions(chunks: seq<RetrievedChunk>, id: string)
    ensures multiset(NotOf(chunks, id)) + multiset(Of(chunks, id)) == multiset(chunks)
    ensures forall c | c in NotOf(chunks, id) :: c.documentID != id
    ensures forall c | c in Of(chunks, id) :: c.documentID == id
  {
    PartsMembers(chunks, id);
    PartsMultiset(chunks, id);
  }

  /** The tokens that unloading frees are those of the document's own chunks. */
  lemma {:induction false} UnloadConserves(chunks: seq<RetrievedChunk>, id: string)
    ensures TotalTokens(NotOf(chunks, id)) + TotalTokens(Of(chunks, id)) == TotalTokens(chunks)
  {
    if chunks != [] {
      var init, c := chunks[..|chunks| - 1], chunks[|chunks| - 1];
      UnloadConserves(init, id);
      if c.documentID == id {
        TotalAppend(Of(init, id), c, ChunkTokens);
        assert NotOf(chunks, id) == NotOf(init, id);
      } else {
        TotalAppend(NotOf(init, id), c, ChunkTokens);
        assert Of(chunks, id) == Of(init, id);
      }
    }
  }

  lemma StepKeepsSound(limits: MemoryLimits, m: Memory, op: Operation)
    requires limits.maxLoaded >= 1 && Sound(limits, m)
    ensures Sound(limits, Step(limits, m, op))
  {
    match op
    case SetContext(chunks) => PrefixWithinIsLongest(chunks, ChunkTokens, limits.maxTokens);
    case Load(doc, now) =>
    case Unload(id) => UnloadConserves(m.chunks, id);
    case UpdateQuery(query) =>
    case ClearAll =>
  }

  /** Over every run: distinct loaded documents, at most the maximum of them, and an exact token total
      within the limit. */
  lemma {:induction false} EveryRunIsSound(limits: MemoryLimits, ops: seq<Operation>)
    requires limits.maxLoaded >= 1
    ensures Sound(limits, Run(limits, ops))
  {
    if ops != [] {
      EveryRunIsSound(limits, ops[..|ops| - 1]);
      StepKeepsSound(limits, Run(limits, ops[..|ops| - 1]), ops[|ops| - 1]);
    }
  }

  /** When, in the run, the document was last put into memory; replacing it there does not count. */
  function InsertedAt(limits: MemoryLimits, ops: seq<Operation>, id: string): nat
    requires limits.maxLoaded >= 1
  {
    if ops == [] then 0
    else
      var init, op := ops[..|ops| - 1], ops[|ops| - 1];
      if op.Load? && op.doc.documentID == id && !IsLoaded(Run(limits, init).loaded, id) then |ops|
      else InsertedAt(limits, init, id)
  }

  lemma {:induction false} InsertedWithin(limits: MemoryLimits, ops: seq<Operation>, id: string)
    requires limits.maxLoaded >= 1
    ensures InsertedAt(limits, ops, id) <= |ops|
  {
    if ops != [] {
      InsertedWithin(limits, ops[..|ops| - 1], id);
    }
  }

  ghost predicate InInsertionOrder(limits: MemoryLimits, ops: seq<Operation>, docs: seq<LoadedDocument>)
    requires limits.maxLoaded >= 1
  {
    forall i, j | 0 <= i < j < |docs| ::
      InsertedAt(limits, ops, docs[i].documentID) < InsertedAt(limits, ops, docs[j].documentID)
  }

  /** The document at i of after stood at j of before, and this operation did not insert it. */
  lemma InsertedEarlier(limits: MemoryLimits, init: seq<Operation>, op: Operation, j: nat)
    requires limits.maxLoaded >= 1
    requires j < |Run(limits, init).loaded|
    ensures var id := Run(limits, init).loaded[j].documentID;
            InsertedAt(limits, init + [op], id) == InsertedAt(limits, init, id) <= |init|
  {
    var id := Run(limits, init).loaded[j].documentID;
    assert (init + [op])[..|init|] == init;
    assert PlaceOf(Run(limits, init).loaded, id) <= j;
    InsertedWithin(limits, init, id);
  }

  /** Where the document at i of the next state stood before, for a document that was there. */
  function CameFrom(limits: MemoryLimits, before: seq<LoadedDocument>, op: Operation, i: nat): nat {
    match op
    case Load(doc, _) => if !IsLoaded(before, doc.documentID) && |before| >= limits.maxLoaded then i + 1 else i
    case Unload(id) => if IsLoaded(before, id) && i >= PlaceOf(before, id) then i + 1 else i
    case _ => i
  }

  /** One step keeps the documents that stay in order; a newly inserted one goes last. */
  lemma StepKeepsPlaces(limits: MemoryLimits, m: Memory, op: Operation, i: nat)
    requires limits.maxLoaded >= 1 && i < |Step(limits, m, op).loaded|
    ensures var after, j := Step(limits, m, op).loaded, CameFrom(limits, m.loaded, op, i);
            || (j < |m.loaded| && after[i].documentID == m.loaded[j].documentID)
            || (i == |after| - 1 && op.Load? && !IsLoaded(m.loaded, op.doc.documentID)
                && after[i].documentID == op.doc.documentID)
  {
  }

  /** Over every run the loaded documents stand in insertion order, so the one evicted is the one that
      was put in first. */
  lemma {:induction false} LoadedInInsertionOrder(limits: MemoryLimits, ops: seq<Operation>)
    requires limits.maxLoaded >= 1
    ensures InInsertionOrder(limits, ops, Run(limits, ops).loaded)
  {
    if ops != [] {
      var init, op := ops[..|ops| - 1], ops[|ops| - 1];
      LoadedInInsertionOrder(limits, init);
      assert ops == init + [op];
      forall i, j | 0 <= i < j < |Run(limits, ops).loaded|
        ensures InsertedAt(limits, ops, Run(limits, ops).loaded[i].documentID)
              < InsertedAt(limits, ops, Run(limits, ops).loaded[j].documentID)
      {
        StepOrder(limits, init, op, i, j);
      }
    }
  }

  lemma StepOrder(limits: MemoryLimits, init: seq<Operation>, op: Operation, i: nat, j: nat)
    requires limits.maxLoaded >= 1
    requires InInsertionOrder(limits, init, Run(limits, init).loaded)
    requires i < j < |Run(limits, init + [op]).loaded|
    ensures InsertedAt(limits, init + [op], Run(limits, init + [op]).loaded[i].documentID)
          < InsertedAt(limits, init + [op], Run(limits, init + [op]).loaded[j].documentID)
  {
    var m := Run(limits, init);
    assert (init + [op])[..|init|] == init;
    StepKeepsPlaces(limits, m, op, i);
    StepKeepsPlaces(limits, m, op, j);
    var i', j' := CameFrom(limits, m.loaded, op, i), CameFrom(limits, m.loaded, op, j);
    InsertedEarlier(limits, init, op, i');
    if j' < |m.loaded| && Run(limits, init + [op]).loaded[j].documentID == m.loaded[j'].documentID {
      InsertedEarlier(limits, init, op, j');
      assert i' < j';
    }
  }

  // ---- the service ----

  class WorkingMemoryService {
    const limits: MemoryLimits
    var store: map<SessionKey, Memory>

    ghost predicate Valid()
      reads this
    {
      limits.maxLoaded >= 1 && forall k | k in store :: Sound(limits, store[k])
    }

    function Current(key: SessionKey): Memory
      reads this
    {
      if key in store then store[key] else EMPTY
    }

    constructor (limits: MemoryLimits)
      requires limits.maxLoaded >= 1
      ensures Valid() && this.limits == limits
      ensures forall k :: Current(k) == EMPTY
    {
      this.limits := limits;
      store := map[];
    }

    method GetWorkingMemory(key: SessionKey) returns (m: Memory)
      requires Valid()
      ensures m == Current(key) && Sound(limits, m)
    {
      m := if key in store then store[key] else EMPTY;
    }

    method TrimChunks(chunks: seq<RetrievedChunk>, maxTokens: int) returns (kept: seq<RetrievedChunk>, total: nat)
      ensures LongestPrefix(kept, chunks, ChunkTokens, maxTokens)
      ensures total == TotalTokens(kept)
    {
      kept, total := TakeWhileFits(chunks, ChunkTokens, maxTokens);
    }

    method SetDocumentContext(key: SessionKey, chunks: seq<RetrievedChunk>, storeOk: bool) returns (ok: bool)
      requires Valid()
      modifies this`store
      ensures Valid()
      ensures ok == storeOk && (!ok ==> store == old(store))
      ensures ok ==> Current(key) == Step(limits, old(Current(key)), SetContext(chunks))
      ensures forall k | k != key :: Current(k) == old(Current(k))
    {
      if !storeOk {
        return false;
      }
      var memory := GetWorkingMemory(key);
      var kept := chunks;
      var total := SumTokens(chunks);
      if total > limits.maxTokens {
        kept, total := TrimChunks(chunks, limits.maxTokens);
      } else {
        assert chunks[..|chunks|] == chunks;
        StopAtOverflow(chunks, |chunks|, ChunkTokens, limits.maxTokens);
      }
      PrefixWithinIsLongest(chunks, ChunkTokens, limits.maxTokens);
      LongestPrefixUnique(kept, PrefixWithin(chunks, ChunkTokens, limits.maxTokens),
                          chunks, ChunkTokens, limits.maxTokens);
      StepKeepsSound(limits, memory, SetContext(chunks));
      store := store[key := memory.(chunks := kept, totalTokens := total)];
      return true;
    }

    method FindDocument(docs: seq<LoadedDocument>, id: string) returns (i: nat)
      ensures i == PlaceOf(docs, id)
    {
      i := 0;
      while i < |docs| && docs[i].documentID != id
        invariant i <= |docs| && forall j | 0 <= j < i :: docs[j].documentID != id
      {
        i := i + 1;
      }
    }

    method LoadDocument(key: SessionKey, doc: LoadedDocument, now: int, storeOk: bool) returns (ok: bool)
      requires Valid()
      modifies this`store
      ensures Valid()
      ensures ok == storeOk && (!ok ==> store == old(store))
      ensures ok ==> Current(key) == Step(limits, old(Current(key)), Load(doc, now))
      ensures forall k | k != key :: Current(k) == old(Current(k))
    {
      if !storeOk {
        return false;
      }
      var memory := GetWorkingMemory(key);
      StepKeepsSound(limits, memory, Load(doc, now));
      var loaded := memory.loaded;
      var i := FindDocument(loaded, doc.documentID);
      if i < |loaded| {
        loaded := loaded[i := doc];
      } else {
        if |loaded| >= limits.maxLoaded {
          loaded := loaded[1..];
        }
        loaded := loaded + [doc.(loadedAt := now)];
      }
      store := store[key := memory.(loaded := loaded)];
      return true;
    }

    method DropChunks(chunks: seq<RetrievedChunk>, id: string) returns (rest: seq<RetrievedChunk>)
      ensures rest == NotOf(chunks, id)
    {
      rest := [];
      for i := 0 to |chunks|
        invariant rest == NotOf(chunks[..i], id)
      {
        assert chunks[..i + 1][..i] == chunks[..i];
        if chunks[i].documentID != id {
          rest := rest + [chunks[i]];
        }
      }
      assert chunks[..|chunks|] == chunks;
    }

    method UnloadDocument(key: SessionKey, documentID: string, storeOk: bool) returns (ok: bool)
      requires Valid()
      modifies this`store
      ensures Valid()
      ensures ok == storeOk && (!ok ==> store == old(store))
      ensures ok ==> Current(key) == Step(limits, old(Current(key)), Unload(documentID))
      ensures forall k | k != key :: Current(k) == old(Current(k))
    {
      if !storeOk {
        return false;
      }
      var memory := GetWorkingMemory(key);
      StepKeepsSound(limits, memory, Unload(documentID));
      var i := FindDocument(memory.loaded, documentID);
      if i < |memory.loaded| {
        var rest := DropChunks(memory.chunks, documentID);
        var total := SumTokens(rest);
        var loaded := memory.loaded[..i] + memory.loaded[i + 1..];
        store := store[key := memory.(loaded := loaded, chunks := rest, totalTokens := total)];
      }
      return true;
    }

    method UpdateLastQuery(key: SessionKey, query: string, storeOk: bool) returns (ok: bool)
      requires Valid()
      modifies this`store
      ensures Valid()
      ensures ok == storeOk && (!ok ==> store == old(store))
      ensures ok ==> Current(key) == Step(limits, old(Current(key)), UpdateQuery(query))
      ensures forall k | k != key :: Current(k) == old(Current(k))
    {
      if storeOk {
        var memory := GetWorkingMemory(key);
        StepKeepsSound(limits, memory, UpdateQuery(query));
        store := store[key := memory.(lastQuery := query)];
      }
      return storeOk;
    }

    method ClearWorkingMemory(key: SessionKey, storeOk: bool) returns (ok: bool)
      requires Valid()
      modifies this`store
      ensures Valid()
      ensures ok == storeOk && (!ok ==> store == old(store))
      ensures ok ==> Current(key) == Step(limits, old(Current(key)), ClearAll)
      ensures forall k | k != key :: Current(k) == old(Current(k))
    {
      if storeOk {
        store := store - {key};
      }
      return storeOk;
    }

    /** Stale unless there is a previous query, there are chunks, and the queries are similar enough. */
    method IsContextStale(key: SessionKey, newQuery: string, threshold: real) returns (stale: bool)
      requires Valid()
      ensures !stale <==>
                && Current(key).lastQuery != ""
                && Current(key).chunks != []
                && QuerySimilarity(Current(key).lastQuery, newQuery) >= threshold
    {
      var memory := GetWorkingMemory(key);
      if memory.lastQuery == "" || |memory.chunks| == 0 {
        return true;
      }
      var similarity := CalculateSimpleSimilarity(memory.lastQuery, newQuery);
      return similarity < threshold;
    }
  }

  /** A context that stays fresh through a run of queries is at most their total drift away. */
  lemma StaleOnlyByDrift(queries: seq<string>, threshold: real)
    requires |queries| >= 2 && Drift(queries) <= 1.0 - threshold
    ensures QuerySimilarity(queries[0], queries[|queries| - 1]) >= threshold
  {
    DriftIsAdditive(queries);
  }
}
