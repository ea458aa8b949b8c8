/** The in-memory context cache and the caching wrapper around document retrieval. */
module Cache {
  import opened Wrappers
  import opened Chunks

  datatype ContextResult = ContextResult(
    chunks: seq<RetrievedChunk>,
    totalTokens: int,
    metadata: map<string, MetaValue>)

  /** Times are in seconds. */
  datatype Entry = Entry(data: ContextResult, expiresAt: int)

  const DEFAULT_CACHE_TTL := 1800

  // ---- keys and patterns ----

  const PREFIX := "doc_context:"

  function PrefixKey(key: string): string { PREFIX + key }

  predicate MatchPattern(key: string, pattern: string) {
    if |pattern| > 0 && pattern[|pattern| - 1] == '*'
    then pattern[..|pattern| - 1] <= key
    else key == pattern
  }

  /** A pattern that ends in an asterisk matches what begins with the rest of it; any other matches itself
      alone. */
  lemma PatternsMatch(key: string, stem: string, pattern: string)
    ensures MatchPattern(key, stem + "*") <==> exists rest :: key == stem + rest
    ensures MatchPattern(key, "*")
    ensures pattern == "" || pattern[|pattern| - 1] != '*' ==> (MatchPattern(key, pattern) <==> key == pattern)
  {
    assert (stem + "*")[..|stem + "*"| - 1] == stem;
    if stem <= key {
      assert key == stem + key[|stem|..];
    }
  }

  /** The prefix is transparent: distinct keys stay distinct, and a prefixed pattern matches a prefixed
      key exactly when the pattern matches the key. */
  lemma PrefixIsTransparent(a: string, b: string)
    ensures PrefixKey(a) == PrefixKey(b) <==> a == b
    ensures MatchPattern(PrefixKey(a), PrefixKey(b)) <==> MatchPattern(a, b)
  {
    assert PrefixKey(a)[|PREFIX|..] == a && PrefixKey(b)[|PREFIX|..] == b;
    assert PREFIX[|PREFIX| - 1] == ':';
    if |b| > 0 {
      var stem := b[..|b| - 1];
      assert PrefixKey(b)[..|PrefixKey(b)| - 1] == PREFIX + stem;
      if stem <= a {
        assert a == stem + a[|stem|..];
        assert PrefixKey(a) == (PREFIX + stem) + a[|stem|..];
      }
      if PREFIX + stem <= PrefixKey(a) {
        assert stem == (PREFIX + stem)[|PREFIX|..];
      }
    }
  }

  /** The time to live in force: the given one, else the configured one, else the default. */
  function EffectiveTTL(ttlSeconds: int, configured: Option<int>): (ttl: int)
    ensures ttl > 0
    ensures ttlSeconds > 0 ==> ttl == ttlSeconds
    ensures ttlSeconds <= 0 && configured.Some? && configured.value > 0 ==> ttl == configured.value
    ensures ttlSeconds <= 0 && !(configured.Some? && configured.value > 0) ==> ttl == DEFAULT_CACHE_TTL
  {
    var t := if ttlSeconds <= 0 && configured.Some? then configured.value else ttlSeconds;
    if t <= 0 then DEFAULT_CACHE_TTL else t
  }

  // ---- what the writes so far mean ----

  datatype Write =
    | SetWrite(key: string, data: ContextResult, at: int, expiresAt: int)
    | InvalidateWrite(pattern: string)

  /** The entries the log of writes leaves in force. */
  function Live(log: seq<Write>): map<string, Entry> {
    if log == [] then map[]
    else
      var m := Live(log[..|log| - 1]);
      match log[|log| - 1]
      case SetWrite(k, d, _, x) => m[k := Entry(d, x)]
      case InvalidateWrite(p) => map k | k in m && !MatchPattern(k, p) :: m[k]
  }

  /** The write ends what the log had for the key. */
  predicate Supersedes(w: Write, key: string) {
    match w
    case SetWrite(k, _, _, _) => k == key
    case InvalidateWrite(p) => MatchPattern(key, p)
  }

  /** Write i is the latest set for the key, with no matching invalidation since. */
  ghost predicate LatestSet(log: seq<Write>, key: string, i: nat) {
    && i < |log|
    && log[i].SetWrite? && log[i].key == key
    && forall j | i < j < |log| :: !Supersedes(log[j], key)
  }

  /** An entry is in force exactly when some write is the latest set for its key, and it is that one. */
  lemma {:induction false} LiveIsLatestSet(log: seq<Write>, key: string)
    ensures key in Live(log) <==> exists i: nat :: LatestSet(log, key, i)
    ensures forall i: nat :: LatestSet(log, key, i) ==>
              key in Live(log) && Live(log)[key] == Entry(log[i].data, log[i].expiresAt)
  {
    if log != [] {
      var init, last := log[..|log| - 1], |log| - 1;
      LiveIsLatestSet(init, key);
      forall i: nat | LatestSet(log, key, i)
        ensures key in Live(log) && Live(log)[key] == Entry(log[i].data, log[i].expiresAt)
      {
        if i < last {
          assert !Supersedes(log[last], key);
          assert LatestSet(init, key, i);
        }
      }
      if key in Live(log) {
        if Supersedes(log[last], key) {
          assert LatestSet(log, key, last);
        } else {
          var i: nat :| LatestSet(init, key, i);
          assert LatestSet(log, key, i);
        }
      }
    }
  }

  // ---- one client at a time ----

  class CacheService {
    const enabled: bool
    const configured: Option<int>
    var memCache: map<string, Entry>
    ghost var log: seq<Write>
    ghost var clock: int

    /** The cache holds entries in force only, and every one that has not expired. */
    ghost predicate Valid()
      reads this
    {
      && (forall k | k in memCache :: k in Live(log) && Live(log)[k] == memCache[k])
      && (forall k | k in Live(log) && Live(log)[k].expiresAt >= clock :: k in memCache)
    }

    constructor (enabled: bool, configured: Option<int>)
      ensures Valid() && log == []
      ensures this.enabled == enabled && this.configured == configured
    {
      this.enabled := enabled;
      this.configured := configured;
      memCache := map[];
      log := [];
      clock := 0;
    }

    /** With no other client about, a hit is exactly an entry in force that has not expired. */
    method GetCachedContext(key: string, now: int) returns (r: Option<ContextResult>)
      requires Valid() && now >= clock
      modifies this`memCache, this`clock
      ensures Valid() && clock == now
      ensures forall k | k in memCache :: k in old(memCache) && memCache[k] == old(memCache)[k]
      ensures var k := PrefixKey(key);
              r == if enabled && k in Live(log) && now <= Live(log)[k].expiresAt then Some(Live(log)[k].data) else None
    {
      clock := now;
      if !enabled {
        return None;
      }
      var prefixed := PrefixKey(key);
      if prefixed !in memCache {
        return None;
      }
      var entry := memCache[prefixed];
      if now > entry.expiresAt {
        memCache := memCache - {prefixed};
        return None;
      }
      return Some(entry.data);
    }

    method SetCachedContext(key: string, data: ContextResult, ttlSeconds: int, now: int)
      requires Valid() && now >= clock
      modifies this
      ensures Valid() && clock == now
      ensures log == old(log)
                     + if enabled then [SetWrite(PrefixKey(key), data, now, now + EffectiveTTL(ttlSeconds, configured))]
                       else []
    {
      clock := now;
      if !enabled {
        return;
      }
      var ttl := EffectiveTTL(ttlSeconds, configured);
      memCache := memCache[PrefixKey(key) := Entry(data, now + ttl)];
      log := log + [SetWrite(PrefixKey(key), data, now, now + ttl)];
      assert log[..|log| - 1] == old(log);
    }

    /** Ranging over the keys in whatever order and deleting the ones that match. */
    method InvalidateCache(pattern: string)
      requires Valid()
      modifies this`memCache, this`log
      ensures Valid()
      ensures log == old(log) + if enabled then [InvalidateWrite(PrefixKey(pattern))] else []
      ensures enabled ==> forall k | MatchPattern(k, pattern) :: PrefixKey(k) !in memCache
    {
      if !enabled {
        return;
      }
      var prefixed := PrefixKey(pattern);
      var left := memCache.Keys;
      ghost var before := memCache;
      while left != {}
        invariant left <= before.Keys && log == old(log)
        invariant memCache == map k | k in before && (k in left || !MatchPattern(k, prefixed)) :: before[k]
        decreases left
      {
        var k :| k in left;
        if MatchPattern(k, prefixed) {
          memCache := memCache - {k};
        }
        left := left - {k};
      }
      log := log + [InvalidateWrite(prefixed)];
      assert log[..|log| - 1] == old(log);
      forall k | MatchPattern(k, pattern) ensures PrefixKey(k) !in memCache {
        PrefixIsTransparent(k, pattern);
      }
    }
  }

  // ---- the wrapper ----

  /** The mark a cached answer carries. */
  function Marked(r: ContextResult, key: string): ContextResult {
    r.(metadata := r.metadata["cached" := MetaBool(true)]["cache_key" := MetaText(key)])
  }

  /** r is the stored result with two marks on it: the same chunks and tokens, and the same metadata but
      for the two names of the marks. */
  ghost predicate IsMarked(r: ContextResult, stored: ContextResult, key: string) {
    && r.chunks == stored.chunks && r.totalTokens == stored.totalTokens
    && "cached" in r.metadata && r.metadata["cached"] == MetaBool(true)
    && "cache_key" in r.metadata && r.metadata["cache_key"] == MetaText(key)
    && forall name | name != "cached" && name != "cache_key" :: SameAt(r.metadata, stored.metadata, name)
  }

  ghost predicate SameAt(a: map<string, MetaValue>, b: map<string, MetaValue>, name: string) {
    (name in a <==> name in b) && (name in a ==> a[name] == b[name])
  }

  lemma MarkedIsMarked(r: ContextResult, key: string)
    ensures IsMarked(Marked(r, key), r, key)
  {
  }

  /** The service's time to live is the given one when that is positive, else the default. */
  lemma ServiceTTLMeans(ttlSeconds: int)
    ensures ttlSeconds > 0 ==> ServiceTTL(ttlSeconds) == ttlSeconds
    ensures ttlSeconds <= 0 ==> ServiceTTL(ttlSeconds) == DEFAULT_CACHE_TTL
  {
  }

  /** What the wrapped service says: an error, no result, or a result. */
  datatype Reply = Failed | Nothing | Answer(result: ContextResult)

  /** NewCachedContextService's time to live. */
  function ServiceTTL(ttlSeconds: int): int {
    if ttlSeconds <= 0 then DEFAULT_CACHE_TTL else ttlSeconds
  }

  /** A hit is marked and leaves the log alone; a miss passes the delegate's reply on and stores a result
      as it came, so no mark ever reaches the cache. The result is only asked for on a miss; the look-up happens at
      `now`, the store, once the delegate has answered, at `later`. */
  method Retrieve(cache: CacheService, key: string, delegate: string -> Reply, ttlSeconds: int,
                  now: int, later: int) returns (r: Reply, hit: bool)
    requires cache.Valid() && cache.clock <= now <= later
    modifies cache
    ensures cache.Valid() && now <= cache.clock <= later
    ensures var k := PrefixKey(key);
            hit <==> cache.enabled && k in Live(old(cache.log)) && now <= Live(old(cache.log))[k].expiresAt
    ensures hit ==> r == Answer(Marked(Live(old(cache.log))[PrefixKey(key)].data, key)) && cache.log == old(cache.log)
    ensures hit ==> r.Answer? && IsMarked(r.result, Live(old(cache.log))[PrefixKey(key)].data, key)
    ensures !hit ==> r == delegate(key)
    ensures !hit && !(cache.enabled && r.Answer?) ==> cache.log == old(cache.log)
    ensures !hit && cache.enabled && r.Answer? ==>
              cache.log == old(cache.log) + [SetWrite(PrefixKey(key), r.result, later, later + ServiceTTL(ttlSeconds))]
  {
    var cached := cache.GetCachedContext(key, now);
    if cached.Some? {
      MarkedIsMarked(cached.value, key);
      return Answer(Marked(cached.value, key)), true;
    }
    r, hit := delegate(key), false;
    if r.Answer? {
      cache.SetCachedContext(key, r.result, ServiceTTL(ttlSeconds), later);
    }
  }
}
