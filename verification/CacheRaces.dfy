/** Concurrent clients of the caching wrapper. Every locked section of the cache is one step; between
    them anything may happen. */
module CacheRaces {
  import opened Wrappers
  import opened Cache

  /** Where a retrieval stands. Retrievals are numbered; seen is the length of the log of writes when this
      one looked the key up. */
  datatype Progress =
    | Looked(call: nat, key: string, seen: nat, found: Option<Entry>)
    | FoundExpired(call: nat, key: string, seen: nat)
    | Missed(call: nat, key: string, seen: nat)
    | Fetched(call: nat, key: string, seen: nat, result: ContextResult, asked: nat)

  /** An answer of the delegate to a retrieval; asked is the length of the log when it was given. */
  datatype Fetch = Fetch(call: nat, key: string, result: ContextResult, asked: nat)

  /** A completed retrieval. */
  datatype Given = Given(call: nat, key: string, result: ContextResult, hit: bool, at: int, seen: nat)

  /** origins tells for each write of the log how long the log was when the delegate gave the value it
      stores; for an invalidation, its own place. */
  datatype State = State(
    memCache: map<string, Entry>,
    log: seq<Write>,
    origins: seq<nat>,
    clients: map<nat, Progress>,
    fetches: set<Fetch>,
    given: seq<Given>,
    calls: nat,
    clock: int)

  const START := State(map[], [], [], map[], {}, [], 0, 0)

  datatype Event =
    | Tick(seconds: nat)
    | Look(client: nat, key: string)
    | Check(client: nat)
    | Evict(client: nat)
    | Ask(client: nat, reply: Reply)
    | Store(client: nat)
    | Invalidate(pattern: string)

  predicate Enabled(s: State, e: Event) {
    match e
    case Tick(_) => true
    case Look(c, _) => c !in s.clients
    case Check(c) => c in s.clients && s.clients[c].Looked?
    case Evict(c) => c in s.clients && s.clients[c].FoundExpired?
    case Ask(c, _) => c in s.clients && s.clients[c].Missed?
    case Store(c) => c in s.clients && s.clients[c].Fetched?
    case Invalidate(_) => true
  }

  function Next(ttl: int, s: State, e: Event): State
    requires Enabled(s, e)
  {
    match e
    case Tick(n) => s.(clock := s.clock + n)
    case Look(c, key) =>
      var k := PrefixKey(key);
      var found := if k in s.memCache then Some(s.memCache[k]) else None;
      s.(clients := s.clients[c := Looked(s.calls, key, |s.log|, found)], calls := s.calls + 1)
    case Check(c) =>
      var p := s.clients[c];
      if p.found == None then s.(clients := s.clients[c := Missed(p.call, p.key, p.seen)])
      else if s.clock > p.found.value.expiresAt
      then s.(clients := s.clients[c := FoundExpired(p.call, p.key, p.seen)])
      else s.(clients := s.clients - {c},
              given := s.given
                       + [Given(p.call, p.key, Marked(p.found.value.data, p.key), true, s.clock, p.seen)])
    case Evict(c) =>
      var p := s.clients[c];
      s.(memCache := s.memCache - {PrefixKey(p.key)}, clients := s.clients[c := Missed(p.call, p.key, p.seen)])
    case Ask(c, reply) =>
      var p := s.clients[c];
      if reply.Answer?
      then s.(clients := s.clients[c := Fetched(p.call, p.key, p.seen, reply.result, |s.log|)],
              fetches := s.fetches + {Fetch(p.call, p.key, reply.result, |s.log|)})
      else s.(clients := s.clients - {c})
    case Store(c) =>
      var p := s.clients[c];
      var k := PrefixKey(p.key);
      s.(memCache := s.memCache[k := Entry(p.result, s.clock + ttl)],
         log := s.log + [SetWrite(k, p.result, s.clock, s.clock + ttl)],
         origins := s.origins + [p.asked],
         clients := s.clients - {c},
         given := s.given + [Given(p.call, p.key, p.result, false, s.clock, p.seen)])
    case Invalidate(pattern) =>
      var prefixed := PrefixKey(pattern);
      s.(memCache := map k | k in s.memCache && !MatchPattern(k, prefixed) :: s.memCache[k],
         log := s.log + [InvalidateWrite(prefixed)],
         origins := s.origins + [|s.log|])
  }

  /** The state that any interleaving leads to; an event that is not possible where it stands changes
      nothing. */
  function From(ttl: int, start: State, events: seq<Event>): State {
    if events == [] then start
    else
      var s, e := From(ttl, start, events[..|events| - 1]), events[|events| - 1];
      if Enabled(s, e) then Next(ttl, s, e) else s
  }

  function After(ttl: int, events: seq<Event>): State {
    From(ttl, START, events)
  }

  // ---- the invariant ----

  /** The entry was in force when the log had its first `seen` writes. */
  ghost predicate WasLive(log: seq<Write>, seen: nat, key: string, e: Entry) {
    seen <= |log| && PrefixKey(key) in Live(log[..seen]) && Live(log[..seen])[PrefixKey(key)] == e
  }

  /** The delegate gave this result for this key when the log had `asked` writes. */
  ghost predicate GaveFor(fetches: set<Fetch>, key: string, result: ContextResult, asked: nat) {
    exists f :: f in fetches && f.key == key && f.result == result && f.asked == asked
  }

  /** Every set stored, for ttl seconds, a result that the delegate gave for that key when the log had
      `origin` writes. */
  ghost predicate Sourced(ttl: int, w: Write, origin: nat, fetches: set<Fetch>) {
    w.SetWrite? ==>
      && w.expiresAt == w.at + ttl
      && exists f :: f in fetches && w.key == PrefixKey(f.key) && f.result == w.data && f.asked == origin
  }

  ghost predicate LogSourced(ttl: int, log: seq<Write>, origins: seq<nat>, fetches: set<Fetch>) {
    && |origins| == |log|
    && forall i | 0 <= i < |log| :: origins[i] <= i && Sourced(ttl, log[i], origins[i], fetches)
  }

  ghost predicate HonestProgress(p: Progress, log: seq<Write>, fetches: set<Fetch>) {
    match p
    case Looked(_, key, seen, found) => seen <= |log| && (found.Some? ==> WasLive(log, seen, key, found.value))
    case FoundExpired(_, _, seen) => seen <= |log|
    case Missed(_, _, seen) => seen <= |log|
    case Fetched(call, key, seen, result, asked) =>
      seen <= asked <= |log| && Fetch(call, key, result, asked) in fetches
  }

  ghost predicate HonestHit(g: Given, log: seq<Write>) {
    exists e :: WasLive(log, g.seen, g.key, e) && g.at <= e.expiresAt && g.result == Marked(e.data, g.key)
  }

  ghost predicate HonestGiven(g: Given, log: seq<Write>, fetches: set<Fetch>) {
    if g.hit then HonestHit(g, log) else exists f :: f in fetches && Answers(f, g)
  }

  /** The delegate gave the answer in that very retrieval, after it had looked the key up. */
  predicate Answers(f: Fetch, g: Given) {
    f.call == g.call && f.key == g.key && f.result == g.result && g.seen <= f.asked
  }

  ghost predicate CacheAgrees(memCache: map<string, Entry>, log: seq<Write>) {
    forall k | k in memCache :: k in Live(log) && Live(log)[k] == memCache[k]
  }

  ghost predicate Invariant(ttl: int, s: State) {
    && CacheAgrees(s.memCache, s.log)
    && LogSourced(ttl, s.log, s.origins, s.fetches)
    && HonestClients(s.clients, s.log, s.fetches)
    && HonestAnswers(s.given, s.log, s.fetches)
  }

  ghost predicate HonestClients(clients: map<nat, Progress>, log: seq<Write>, fetches: set<Fetch>) {
    forall c | c in clients :: HonestProgress(clients[c], log, fetches)
  }

  ghost predicate HonestAnswers(given: seq<Given>, log: seq<Write>, fetches: set<Fetch>) {
    forall i | 0 <= i < |given| :: HonestGiven(given[i], log, fetches)
  }

  /** What was in force at a read stays so, however the log grows. */
  lemma WasLiveLasts(log: seq<Write>, w: Write, seen: nat, key: string, e: Entry)
    requires WasLive(log, seen, key, e)
    ensures WasLive(log + [w], seen, key, e)
  {
    assert (log + [w])[..seen] == log[..seen];
  }

  lemma ClientsStayHonest(clients: map<nat, Progress>, log: seq<Write>, w: Write, fetches: set<Fetch>)
    requires HonestClients(clients, log, fetches)
    ensures HonestClients(clients, log + [w], fetches)
  {
    forall c | c in clients ensures HonestProgress(clients[c], log + [w], fetches) {
      var p := clients[c];
      assert HonestProgress(p, log, fetches);
      if p.Looked? && p.found.Some? {
        WasLiveLasts(log, w, p.seen, p.key, p.found.value);
      }
    }
  }

  lemma AnswersStayHonest(given: seq<Given>, log: seq<Write>, w: Write, fetches: set<Fetch>)
    requires HonestAnswers(given, log, fetches)
    ensures HonestAnswers(given, log + [w], fetches)
  {
    forall i | 0 <= i < |given| ensures HonestGiven(given[i], log + [w], fetches) {
      var g := given[i];
      assert HonestGiven(g, log, fetches);
      if g.hit {
        var e :| WasLive(log, g.seen, g.key, e) && g.at <= e.expiresAt && g.result == Marked(e.data, g.key);
        WasLiveLasts(log, w, g.seen, g.key, e);
      }
    }
  }

  lemma StoreKeepsInvariant(ttl: int, s: State, c: nat)
    requires Invariant(ttl, s) && Enabled(s, Store(c))
    ensures Invariant(ttl, Next(ttl, s, Store(c)))
  {
    var p := s.clients[c];
    var w := SetWrite(PrefixKey(p.key), p.result, s.clock, s.clock + ttl);
    var g := Given(p.call, p.key, p.result, false, s.clock, p.seen);
    ClientsStayHonest(s.clients - {c}, s.log, w, s.fetches);
    AnswersStayHonest(s.given + [g], s.log, w, s.fetches);
    var t := Next(ttl, s, Store(c));
    assert t.memCache == s.memCache[w.key := Entry(w.data, w.expiresAt)];
    assert t.log == s.log + [w] && t.origins == s.origins + [p.asked];
    assert t.clients == s.clients - {c} && t.given == s.given + [g];
  }

  lemma InvalidateKeepsInvariant(ttl: int, s: State, pattern: string)
    requires Invariant(ttl, s)
    ensures Invariant(ttl, Next(ttl, s, Invalidate(pattern)))
  {
    var w := InvalidateWrite(PrefixKey(pattern));
    ClientsStayHonest(s.clients, s.log, w, s.fetches);
    AnswersStayHonest(s.given, s.log, w, s.fetches);
    assert (s.log + [w])[..|s.log|] == s.log;
  }

  lemma NextKeepsInvariant(ttl: int, s: State, e: Event)
    requires Invariant(ttl, s) && Enabled(s, e)
    ensures Invariant(ttl, Next(ttl, s, e))
  {
    match e
    case Tick(_) =>
    case Look(c, key) =>
      assert s.log[..|s.log|] == s.log;
    case Check(c) =>
      assert HonestProgress(s.clients[c], s.log, s.fetches);
    case Evict(c) =>
    case Ask(c, reply) =>
      if reply.Answer? {
        AskKeepsInvariant(ttl, s, c, reply.result);
      }
    case Store(c) => StoreKeepsInvariant(ttl, s, c);
    case Invalidate(pattern) => InvalidateKeepsInvariant(ttl, s, pattern);
  }

  lemma AskKeepsInvariant(ttl: int, s: State, c: nat, result: ContextResult)
    requires Invariant(ttl, s) && Enabled(s, Ask(c, Answer(result)))
    ensures Invariant(ttl, Next(ttl, s, Ask(c, Answer(result))))
  {
    var fetches := s.fetches + {Fetch(s.clients[c].call, s.clients[c].key, result, |s.log|)};
    assert HonestProgress(s.clients[c], s.log, s.fetches);
    forall i | 0 <= i < |s.log| ensures Sourced(ttl, s.log[i], s.origins[i], fetches) {
      assert Sourced(ttl, s.log[i], s.origins[i], s.fetches);
    }
  }

  lemma {:induction false} EveryRunIsHonest(ttl: int, events: seq<Event>)
    ensures Invariant(ttl, After(ttl, events))
  {
    if events != [] {
      var s := After(ttl, events[..|events| - 1]);
      EveryRunIsHonest(ttl, events[..|events| - 1]);
      if Enabled(s, events[|events| - 1]) {
        NextKeepsInvariant(ttl, s, events[|events| - 1]);
      }
    }
  }
}
