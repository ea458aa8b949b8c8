/** What answers can be trusted for, under every interleaving of the caching wrapper's clients. */
module CacheGuarantees {
  import opened Cache
  import opened CacheRaces

  /** Write i stands behind a hit: at the read it was the latest set for the key with no matching
      invalidation since; the check came within ttl seconds of it; the answer is the mark of its value;
      and that value is one the delegate gave for the very same key. */
  ghost predicate Vouches(ttl: int, s: State, i: nat, g: Given) {
    && g.seen <= |s.log| && LatestSet(s.log[..g.seen], PrefixKey(g.key), i)
    && s.log[i].SetWrite?
    && g.at <= s.log[i].at + ttl
    && g.result == Marked(s.log[i].data, g.key) && IsMarked(g.result, s.log[i].data, g.key)
    && i < |s.origins| && s.origins[i] <= i
    && GaveFor(s.fetches, g.key, s.log[i].data, s.origins[i])
  }

  lemma HonestHitIsVouched(ttl: int, s: State, g: Given)
    requires Invariant(ttl, s) && g in s.given && g.hit
    ensures exists i: nat :: Vouches(ttl, s, i, g)
  {
    var n :| 0 <= n < |s.given| && s.given[n] == g;
    assert HonestGiven(s.given[n], s.log, s.fetches);
    var e :| WasLive(s.log, g.seen, g.key, e) && g.at <= e.expiresAt && g.result == Marked(e.data, g.key);
    var seen := s.log[..g.seen];
    LiveIsLatestSet(seen, PrefixKey(g.key));
    var i: nat :| LatestSet(seen, PrefixKey(g.key), i);
    assert seen[i] == s.log[i];
    assert Sourced(ttl, s.log[i], s.origins[i], s.fetches);
    var f :| f in s.fetches && s.log[i].key == PrefixKey(f.key) && f.result == s.log[i].data && f.asked == s.origins[i];
    PrefixIsTransparent(f.key, g.key);
    MarkedIsMarked(s.log[i].data, g.key);
    assert Vouches(ttl, s, i, g);
  }

  // ---- every retrieval is on its own ----

  /** Retrievals under way have numbers of their own. */
  ghost predicate ClientsApart(s: State) {
    && (forall c | c in s.clients :: s.clients[c].call < s.calls)
    && (forall c, d | c in s.clients && d in s.clients && s.clients[c].call == s.clients[d].call :: c == d)
  }

  /** The delegate answers a retrieval at most once, and has not yet if it has not been asked. */
  ghost predicate FetchesApart(s: State) {
    && (forall f | f in s.fetches :: f.call < s.calls)
    && (forall f, g | f in s.fetches && g in s.fetches && f.call == g.call :: f == g)
    && (forall f, c | f in s.fetches && c in s.clients && f.call == s.clients[c].call :: s.clients[c].Fetched?)
  }

  /** A retrieval is completed at most once, and then is no longer under way. */
  ghost predicate AnswersApart(s: State) {
    && (forall i | 0 <= i < |s.given| :: s.given[i].call < s.calls)
    && (forall i, c | 0 <= i < |s.given| && c in s.clients :: s.given[i].call != s.clients[c].call)
    && (forall i, j | 0 <= i < j < |s.given| :: s.given[i].call != s.given[j].call)
  }

  lemma NextKeepsClientsApart(ttl: int, s: State, e: Event)
    requires ClientsApart(s) && Enabled(s, e)
    ensures ClientsApart(Next(ttl, s, e))
  {
  }

  lemma NextKeepsFetchesApart(ttl: int, s: State, e: Event)
    requires ClientsApart(s) && FetchesApart(s) && Enabled(s, e)
    ensures FetchesApart(Next(ttl, s, e))
  {
  }

  lemma NextKeepsAnswersApart(ttl: int, s: State, e: Event)
    requires ClientsApart(s) && AnswersApart(s) && Enabled(s, e)
    ensures AnswersApart(Next(ttl, s, e))
  {
  }

  lemma {:induction false} CallsStayApart(ttl: int, events: seq<Event>)
    ensures var s := After(ttl, events);
            ClientsApart(s) && FetchesApart(s) && AnswersApart(s)
  {
    if events != [] {
      var s := After(ttl, events[..|events| - 1]);
      CallsStayApart(ttl, events[..|events| - 1]);
      if Enabled(s, events[|events| - 1]) {
        NextKeepsClientsApart(ttl, s, events[|events| - 1]);
        NextKeepsFetchesApart(ttl, s, events[|events| - 1]);
        NextKeepsAnswersApart(ttl, s, events[|events| - 1]);
      }
    }
  }

  ghost predicate BackedHit(ttl: int, s: State, g: Given) {
    g.hit ==> exists i: nat :: Vouches(ttl, s, i, g)
  }

  /** The delegate answered this retrieval, and with nothing else. */
  ghost predicate BackedMiss(s: State, g: Given) {
    !g.hit ==>
      && (exists f :: f in s.fetches && Answers(f, g))
      && (forall f | f in s.fetches && f.call == g.call :: Answers(f, g))
  }

  /** The cache may forget but never lies: under every interleaving each answer given as a hit has a
      write that stands behind it, and every other answer is the one the delegate gave in that very
      retrieval, after it had looked the key up. */
  lemma NeverLies(ttl: int, events: seq<Event>, n: nat)
    requires n < |After(ttl, events).given|
    ensures BackedHit(ttl, After(ttl, events), After(ttl, events).given[n])
    ensures BackedMiss(After(ttl, events), After(ttl, events).given[n])
  {
    var s := After(ttl, events);
    CallsStayApart(ttl, events);
    EveryRunIsHonest(ttl, events);
    assert HonestGiven(s.given[n], s.log, s.fetches);
    if s.given[n].hit {
      HonestHitIsVouched(ttl, s, s.given[n]);
    }
  }

  // ---- answers older than an invalidation ----

  predicate Invalidates(w: Write, key: string) {
    w.InvalidateWrite? && MatchPattern(PrefixKey(key), w.pattern)
  }

  /** A matching invalidation came between the fetch of the value that write i stores and its store. */
  ghost predicate Overtaken(s: State, i: nat, key: string)
    requires i < |s.log| && i < |s.origins|
  {
    exists j :: s.origins[i] <= j < i && Invalidates(s.log[j], key)
  }

  /** A hit carries a value fetched after every matching invalidation before its read, exactly when none
      came between that value's fetch and its store. */
  lemma HitIsCurrentExactly(ttl: int, s: State, i: nat, g: Given)
    requires Vouches(ttl, s, i, g)
    ensures (forall j | 0 <= j < g.seen :: Invalidates(s.log[j], g.key) ==> j < s.origins[i])
       <==> !Overtaken(s, i, g.key)
  {
    var seen := s.log[..g.seen];
    forall j | i <= j < g.seen ensures !Invalidates(s.log[j], g.key) {
      assert seen[j] == s.log[j];
    }
  }
}
