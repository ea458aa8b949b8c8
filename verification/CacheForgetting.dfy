/** What the cache forgets, exactly, and the runs in which its races show. */
module CacheForgetting {
  import opened Wrappers
  import opened Cache
  import opened CacheRaces
  import opened CacheGuarantees

  /** Since the last store under the key a late delete has hit it. */
  predicate EvictedSince(ttl: int, events: seq<Event>, k: string) {
    if events == [] then false
    else
      var s, e := After(ttl, events[..|events| - 1]), events[|events| - 1];
      if Enabled(s, e) && e.Evict? && PrefixKey(s.clients[e.client].key) == k then true
      else if Enabled(s, e) && e.Store? && PrefixKey(s.clients[e.client].key) == k then false
      else EvictedSince(ttl, events[..|events| - 1], k)
  }

  /** Exactly what is forgotten: under every interleaving the cache holds the entries in force, with
      their values, but for those that a late delete has hit since they were stored. */
  lemma {:induction false} CachedExactly(ttl: int, events: seq<Event>, k: string)
    ensures var s := After(ttl, events);
            && (k in s.memCache <==> k in Live(s.log) && !EvictedSince(ttl, events, k))
            && (k in s.memCache ==> s.memCache[k] == Live(s.log)[k])
  {
    EveryRunIsHonest(ttl, events);
    if events != [] {
      var s, e := After(ttl, events[..|events| - 1]), events[|events| - 1];
      CachedExactly(ttl, events[..|events| - 1], k);
      if Enabled(s, e) {
        var t := Next(ttl, s, e);
        assert |t.log| > |s.log| ==> t.log[..|t.log| - 1] == s.log;
      }
    }
  }

  /** A client is about to delete the key's entry, or holds an older one that will expire first and would
      then do so. */
  ghost predicate Threatened(s: State, key: string, e: Entry) {
    exists c :: c in s.clients && Threatens(s.clients[c], key, e)
  }

  predicate Threatens(p: Progress, key: string, e: Entry) {
    || (p.FoundExpired? && p.key == key)
    || (p.Looked? && p.key == key && p.found.Some? && p.found.value.expiresAt < e.expiresAt)
  }

  ghost predicate Holds(s: State, key: string, e: Entry) {
    PrefixKey(key) in s.memCache && s.memCache[PrefixKey(key)] == e
  }

  /** Nothing written since the log was `from` long replaces or invalidates the key, and e has not
      expired. */
  ghost predicate Quiet(s: State, from: nat, key: string, e: Entry) {
    (forall i | from <= i < |s.log| :: !Supersedes(s.log[i], PrefixKey(key))) && s.clock <= e.expiresAt
  }

  lemma {:induction false} LogGrows(ttl: int, start: State, events: seq<Event>)
    ensures start.log <= From(ttl, start, events).log
    ensures start.clock <= From(ttl, start, events).clock
  {
    if events != [] {
      LogGrows(ttl, start, events[..|events| - 1]);
    }
  }

  lemma SafeStep(ttl: int, s: State, ev: Event, key: string, e: Entry)
    requires Holds(s, key, e) && !Threatened(s, key, e)
    requires Enabled(s, ev) && Quiet(Next(ttl, s, ev), |s.log|, key, e)
    ensures Holds(Next(ttl, s, ev), key, e) && !Threatened(Next(ttl, s, ev), key, e)
  {
    var t := Next(ttl, s, ev);
    match ev
    case Tick(_) =>
    case Look(c, other) => PrefixIsTransparent(other, key);
    case Check(c) => assert !Threatens(s.clients[c], key, e);
    case Evict(c) =>
      assert !Threatens(s.clients[c], key, e);
      PrefixIsTransparent(s.clients[c].key, key);
    case Ask(c, _) =>
    case Store(c) => assert !Supersedes(t.log[|s.log|], PrefixKey(key));
    case Invalidate(_) => assert !Supersedes(t.log[|s.log|], PrefixKey(key));
    forall c | c in t.clients ensures !Threatens(t.clients[c], key, e) {
      assert c in s.clients ==> !Threatens(s.clients[c], key, e);
    }
  }

  lemma {:induction false} SafeRun(ttl: int, start: State, events: seq<Event>, key: string, e: Entry)
    requires Holds(start, key, e) && !Threatened(start, key, e)
    requires Quiet(From(ttl, start, events), |start.log|, key, e)
    ensures Holds(From(ttl, start, events), key, e) && !Threatened(From(ttl, start, events), key, e)
  {
    if events != [] {
      var init, ev := events[..|events| - 1], events[|events| - 1];
      var s, t := From(ttl, start, init), From(ttl, start, events);
      LogGrows(ttl, start, init);
      assert s.log <= t.log;
      forall i | |start.log| <= i < |s.log| ensures !Supersedes(s.log[i], PrefixKey(key)) {
        assert t.log[i] == s.log[i];
      }
      SafeRun(ttl, start, init, key, e);
      if Enabled(s, ev) {
        SafeStep(ttl, s, ev, key, e);
      }
    }
  }

  lemma ThreatForgets(ttl: int, s: State, key: string, e: Entry, c: nat) returns (events: seq<Event>)
    requires Holds(s, key, e) && s.clock <= e.expiresAt
    requires c in s.clients && Threatens(s.clients[c], key, e)
    ensures Quiet(From(ttl, s, events), |s.log|, key, e)
    ensures PrefixKey(key) !in From(ttl, s, events).memCache
  {
    if s.clients[c].FoundExpired? {
      events := [Evict(c)];
      assert events[..0] == [];
      assert From(ttl, s, events) == Next(ttl, s, Evict(c));
    } else {
      var late := s.clients[c].found.value.expiresAt + 1;
      var n: nat := if late > s.clock then late - s.clock else 0;
      var e1, e2 := [Tick(n)], [Tick(n), Check(c)];
      events := [Tick(n), Check(c), Evict(c)];
      assert e1[..0] == [] && e2[..1] == e1 && events[..2] == e2;
      assert From(ttl, s, e1) == Next(ttl, s, Tick(n));
      assert From(ttl, s, e2).clients[c] == FoundExpired(s.clients[c].call, key, s.clients[c].seen);
      assert From(ttl, s, events) == Next(ttl, From(ttl, s, e2), Evict(c));
    }
  }

  /** Exactly when an entry can be forgotten: some run in which it neither expires nor is replaced or
      invalidated loses it, if and only if some client is about to delete under its key, or holds an older
      entry for it that expires first. */
  lemma ForgottenExactly(ttl: int, s: State, key: string, e: Entry)
    requires Holds(s, key, e) && s.clock <= e.expiresAt
    ensures (exists events :: Quiet(From(ttl, s, events), |s.log|, key, e)
                           && PrefixKey(key) !in From(ttl, s, events).memCache)
       <==> Threatened(s, key, e)
  {
    if Threatened(s, key, e) {
      var c :| c in s.clients && Threatens(s.clients[c], key, e);
      var events := ThreatForgets(ttl, s, key, e, c);
    } else {
      forall events | Quiet(From(ttl, s, events), |s.log|, key, e)
        ensures PrefixKey(key) in From(ttl, s, events).memCache
      {
        SafeRun(ttl, s, events, key, e);
      }
    }
  }

  /** A store made while nobody else has looked the key up, or is about to delete it, keeps its entry
      until it expires, is replaced or is invalidated. */
  lemma UnobservedStoreLasts(ttl: int, s: State, c: nat, events: seq<Event>)
    requires Enabled(s, Store(c))
    requires forall d | d in s.clients && d != c ::
               s.clients[d].key == s.clients[c].key ==> !s.clients[d].Looked? && !s.clients[d].FoundExpired?
    requires var e := Entry(s.clients[c].result, s.clock + ttl);
             Quiet(From(ttl, Next(ttl, s, Store(c)), events), |s.log| + 1, s.clients[c].key, e)
    ensures var e := Entry(s.clients[c].result, s.clock + ttl);
            Holds(From(ttl, Next(ttl, s, Store(c)), events), s.clients[c].key, e)
  {
    var e := Entry(s.clients[c].result, s.clock + ttl);
    SafeRun(ttl, Next(ttl, s, Store(c)), events, s.clients[c].key, e);
  }

  ghost predicate Reachable(ttl: int, s: State) {
    exists events :: After(ttl, events) == s
  }

  lemma MoveReaches(ttl: int, s: State, e: Event)
    requires Reachable(ttl, s) && Enabled(s, e)
    ensures Reachable(ttl, Next(ttl, s, e))
  {
    var events :| After(ttl, events) == s;
    assert (events + [e])[..|events|] == events;
    assert After(ttl, events + [e]) == Next(ttl, s, e);
  }

  /** From a state where the client is idle and the key is not cached, one retrieval stores the answer. */
  lemma MissReaches(ttl: int, s: State, c: nat, key: string, data: ContextResult) returns (t: State)
    requires Reachable(ttl, s) && c !in s.clients && PrefixKey(key) !in s.memCache
    ensures Reachable(ttl, t)
    ensures t.clients == s.clients && t.clock == s.clock
    ensures t.memCache == s.memCache[PrefixKey(key) := Entry(data, s.clock + ttl)]
    ensures t.log == s.log + [SetWrite(PrefixKey(key), data, s.clock, s.clock + ttl)]
  {
    MoveReaches(ttl, s, Look(c, key));
    var s1 := Next(ttl, s, Look(c, key));
    MoveReaches(ttl, s1, Check(c));
    var s2 := Next(ttl, s1, Check(c));
    MoveReaches(ttl, s2, Ask(c, Answer(data)));
    var s3 := Next(ttl, s2, Ask(c, Answer(data)));
    MoveReaches(ttl, s3, Store(c));
    t := Next(ttl, s3, Store(c));
    assert t.clients == s.clients;
  }

  /** From a state where the key holds an expired entry, a client comes to the point of deleting it. */
  lemma ExpiryReaches(ttl: int, s: State, c: nat, key: string) returns (t: State)
    requires Reachable(ttl, s) && c !in s.clients
    requires PrefixKey(key) in s.memCache && s.memCache[PrefixKey(key)].expiresAt < s.clock
    ensures Reachable(ttl, t)
    ensures t == s.(clients := s.clients[c := FoundExpired(s.calls, key, |s.log|)], calls := s.calls + 1)
  {
    MoveReaches(ttl, s, Look(c, key));
    var s1 := Next(ttl, s, Look(c, key));
    MoveReaches(ttl, s1, Check(c));
    t := Next(ttl, s1, Check(c));
    assert t.clients == s.clients[c := FoundExpired(s.calls, key, |s.log|)];
  }

  /** The race: a client that found an expired entry deletes whatever the key holds by then, here the
      entry another client has just stored. So a miss proves nothing. */
  lemma FreshEntryForgotten(ttl: int, key: string, stale: ContextResult, recent: ContextResult)
    requires ttl > 0
    ensures exists s :: Reachable(ttl, s) && PrefixKey(key) !in s.memCache
                     && PrefixKey(key) in Live(s.log) && Live(s.log)[PrefixKey(key)].expiresAt > s.clock
  {
    var k := PrefixKey(key);
    assert After(ttl, []) == START;
    var s1 := MissReaches(ttl, START, 0, key, stale);
    MoveReaches(ttl, s1, Tick(ttl + 1));
    var s2 := Next(ttl, s1, Tick(ttl + 1));
    var s3 := ExpiryReaches(ttl, s2, 1, key);
    var s4 := ExpiryReaches(ttl, s3, 2, key);
    MoveReaches(ttl, s4, Evict(2));
    var s5 := Next(ttl, s4, Evict(2));
    var s6 := MissReaches(ttl, s5, 3, key, recent);
    MoveReaches(ttl, s6, Evict(1));
    var s7 := Next(ttl, s6, Evict(1));
    assert s7.log[..|s5.log|] == s5.log;
    assert Live(s7.log)[k] == Entry(recent, s7.clock + ttl);
  }

  /** From a state where the client is idle and the key is not cached, the delegate is asked. */
  lemma AskReaches(ttl: int, s: State, c: nat, key: string, data: ContextResult) returns (t: State)
    requires Reachable(ttl, s) && c !in s.clients && PrefixKey(key) !in s.memCache
    ensures Reachable(ttl, t)
    ensures t == s.(clients := s.clients[c := Fetched(s.calls, key, |s.log|, data, |s.log|)],
                    fetches := s.fetches + {Fetch(s.calls, key, data, |s.log|)}, calls := s.calls + 1)
  {
    MoveReaches(ttl, s, Look(c, key));
    var s1 := Next(ttl, s, Look(c, key));
    MoveReaches(ttl, s1, Check(c));
    var s2 := Next(ttl, s1, Check(c));
    MoveReaches(ttl, s2, Ask(c, Answer(data)));
    t := Next(ttl, s2, Ask(c, Answer(data)));
    assert t.clients == s.clients[c := Fetched(s.calls, key, |s.log|, data, |s.log|)];
  }

  /** From a state where the client is idle and the key holds a fresh entry, a hit. */
  lemma HitReaches(ttl: int, s: State, c: nat, key: string, e: Entry) returns (t: State)
    requires Reachable(ttl, s) && c !in s.clients && Holds(s, key, e) && s.clock <= e.expiresAt
    ensures Reachable(ttl, t)
    ensures t.log == s.log && t.origins == s.origins && t.fetches == s.fetches
    ensures t.given == s.given + [Given(s.calls, key, Marked(e.data, key), true, s.clock, |s.log|)]
  {
    MoveReaches(ttl, s, Look(c, key));
    var s1 := Next(ttl, s, Look(c, key));
    MoveReaches(ttl, s1, Check(c));
    t := Next(ttl, s1, Check(c));
  }

  /** A client that missed fetches before an invalidation and stores after it: from then on hits carry
      the value fetched before. */
  lemma StaleAfterInvalidation(ttl: int, key: string, stale: ContextResult)
    requires ttl >= 0
    ensures exists s, i: nat, g: Given :: Reachable(ttl, s) && g in s.given && g.hit && Vouches(ttl, s, i, g)
                                  && Overtaken(s, i, g.key)
  {
    assert After(ttl, []) == START;
    var s1 := AskReaches(ttl, START, 0, key, stale);
    MoveReaches(ttl, s1, Invalidate(key));
    var s2 := Next(ttl, s1, Invalidate(key));
    MoveReaches(ttl, s2, Store(0));
    var s3 := Next(ttl, s2, Store(0));
    var t := HitReaches(ttl, s3, 1, key, Entry(stale, ttl));
    var g := Given(1, key, Marked(stale, key), true, 0, 2);
    assert t.given[1] == g;
    assert t.log[..2] == t.log;
    assert Fetch(0, key, stale, 0) in t.fetches;
    MarkedIsMarked(stale, key);
    assert Vouches(ttl, t, 1, g);
    assert Invalidates(t.log[0], key);
    assert Overtaken(t, 1, key);
  }
}
