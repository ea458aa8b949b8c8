/** Fitting scored chunks to the token budget: one reserve per tier, then a fill with the rest. */
module HybridAllocation {
  import opened Budgets
  import opened Keyed
  import opened HybridModel

  /** Go's int(x): truncation toward zero. */
  function Truncate(x: real): int {
    if x >= 0.0 then x.Floor else -(-x).Floor
  }

  function TierReserve(cfg: HybridConfig, t: PriorityTier): int {
    var share := Truncate(cfg.tokenBudget as real * t.percentage);
    if t.maxTokens > 0 && share > t.maxTokens then t.maxTokens else share
  }

  /** The reserves by tier name; a later tier of the same name overwrites an earlier one. */
  function Reserves(cfg: HybridConfig, tiers: seq<PriorityTier>): map<string, int> {
    if tiers == [] then map[]
    else
      var t := tiers[|tiers| - 1];
      Reserves(cfg, tiers[..|tiers| - 1])[t.name := TierReserve(cfg, t)]
  }

  function TierOf(c: ScoredChunk): string { c.priorityTier }

  function InTier(chunks: seq<ScoredChunk>, name: string): seq<ScoredChunk> {
    AllWith(chunks, TierOf, name)
  }

  function TierTokens(name: string): ScoredChunk -> nat {
    (c: ScoredChunk) => if c.priorityTier == name then c.estimatedTokens else 0
  }

  /** The chunks chosen so far and the tokens booked on each tier. */
  datatype Allotment = Allotment(chosen: seq<ScoredChunk>, booked: map<string, int>)

  function Booked(m: map<string, int>, name: string): int {
    if name in m then m[name] else 0
  }

  function Room(cfg: HybridConfig, a: Allotment): int {
    cfg.tokenBudget - Total(a.chosen, Tokens)
  }

  function Min(a: int, b: int): int { if a <= b then a else b }

  /** What tier t takes when a is already allotted. */
  function TierTake(cfg: HybridConfig, chunks: seq<ScoredChunk>, a: Allotment, name: string): seq<ScoredChunk> {
    Greedy(InTier(chunks, name), Tokens, Min(Booked(Reserves(cfg, cfg.priorityTiers), name), Room(cfg, a)))
  }

  /** One tier's turn: its take is added and booked, replacing what the name had booked before. */
  function TierTurn(cfg: HybridConfig, chunks: seq<ScoredChunk>, a: Allotment, name: string): Allotment {
    var take := TierTake(cfg, chunks, a, name);
    Allotment(a.chosen + take, a.booked[name := Total(take, Tokens)])
  }

  /** The first pass over the first n tiers. */
  function FirstPass(cfg: HybridConfig, chunks: seq<ScoredChunk>, n: nat): Allotment
    requires n <= |cfg.priorityTiers|
  {
    if n == 0 then Allotment([], map[])
    else TierTurn(cfg, chunks, FirstPass(cfg, chunks, n - 1), cfg.priorityTiers[n - 1].name)
  }

  function AddChunk(a: Allotment, c: ScoredChunk): Allotment {
    Allotment(a.chosen + [c], a.booked[c.priorityTier := Booked(a.booked, c.priorityTier) + c.estimatedTokens])
  }

  predicate Fills(cfg: HybridConfig, a: Allotment, c: ScoredChunk) {
    KeyOf(c) !in KeysOf(a.chosen, KeyOf) && c.estimatedTokens <= Room(cfg, a)
  }

  /** The second pass over the given chunks, continuing from a. */
  function Fill(cfg: HybridConfig, chunks: seq<ScoredChunk>, a: Allotment): Allotment {
    if chunks == [] then a
    else
      var before, c := Fill(cfg, chunks[..|chunks| - 1], a), chunks[|chunks| - 1];
      if Fills(cfg, before, c) then AddChunk(before, c) else before
  }

  /** Both passes. */
  function Allot(cfg: HybridConfig, chunks: seq<ScoredChunk>): Allotment {
    var first := FirstPass(cfg, chunks, |cfg.priorityTiers|);
    if Room(cfg, first) > 0 then Fill(cfg, chunks, first) else first
  }

  /** A chunk counts with its estimated tokens, and under its own tier alone. */
  lemma TokensAddUp(chunks: seq<ScoredChunk>, c: ScoredChunk, name: string)
    ensures Total([], Tokens) == Total([], TierTokens(name)) == 0
    ensures Total(chunks + [c], Tokens) == Total(chunks, Tokens) + c.estimatedTokens
    ensures Total(chunks + [c], TierTokens(name))
         == Total(chunks, TierTokens(name)) + if c.priorityTier == name then c.estimatedTokens else 0
  {
    TotalAppend(chunks, c, Tokens);
    TotalAppend(chunks, c, TierTokens(name));
  }

  // ---- the loops ----

  /** The group of a tier, empty when no chunk has it. */
  function GroupOf(groups: map<string, seq<ScoredChunk>>, name: string): seq<ScoredChunk> {
    if name in groups then groups[name] else []
  }

  method AddToGroup(groups: map<string, seq<ScoredChunk>>, c: ScoredChunk, ghost grouped: seq<ScoredChunk>)
    returns (after: map<string, seq<ScoredChunk>>)
    requires forall name :: GroupOf(groups, name) == InTier(grouped, name)
    ensures forall name :: GroupOf(after, name) == InTier(grouped + [c], name)
  {
    after := groups[c.priorityTier := GroupOf(groups, c.priorityTier) + [c]];
    forall name ensures GroupOf(after, name) == InTier(grouped + [c], name) {
      assert GroupOf(groups, name) == InTier(grouped, name);
    }
  }

  method GroupByTier(chunks: seq<ScoredChunk>) returns (groups: map<string, seq<ScoredChunk>>)
    ensures forall name :: GroupOf(groups, name) == InTier(chunks, name)
  {
    groups := map[];
    ghost var grouped := [];
    for i := 0 to |chunks|
      invariant grouped == chunks[..i]
      invariant forall name :: GroupOf(groups, name) == InTier(grouped, name)
    {
      groups := AddToGroup(groups, chunks[i], grouped);
      grouped := grouped + [chunks[i]];
    }
    assert grouped == chunks;
  }

  method TierBudgets(cfg: HybridConfig) returns (reserves: map<string, int>)
    ensures reserves == Reserves(cfg, cfg.priorityTiers)
  {
    reserves := map[];
    for i := 0 to |cfg.priorityTiers|
      invariant reserves == Reserves(cfg, cfg.priorityTiers[..i])
    {
      assert cfg.priorityTiers[..i + 1][..i] == cfg.priorityTiers[..i];
      reserves := reserves[cfg.priorityTiers[i].name := TierReserve(cfg, cfg.priorityTiers[i])];
    }
    assert cfg.priorityTiers[..|cfg.priorityTiers|] == cfg.priorityTiers;
  }

  /** One tier's turn, with the remaining budget carried along. */
  method TakeTier(cfg: HybridConfig, a: Allotment, remaining: int, name: string,
                  reserves: map<string, int>, groups: map<string, seq<ScoredChunk>>, ghost chunks: seq<ScoredChunk>)
    returns (next: Allotment, left: int)
    requires remaining == Room(cfg, a) && reserves == Reserves(cfg, cfg.priorityTiers)
    requires GroupOf(groups, name) == InTier(chunks, name)
    ensures next == TierTurn(cfg, chunks, a, name) && left == Room(cfg, next)
  {
    var take, used := TakeWhatFits(GroupOf(groups, name), Tokens, Min(Booked(reserves, name), remaining));
    TotalConcat(a.chosen, take, Tokens);
    next := Allotment(a.chosen + take, a.booked[name := used]);
    left := remaining - used;
  }

  method AllocateReserves(cfg: HybridConfig, chunks: seq<ScoredChunk>) returns (a: Allotment, remaining: int)
    ensures a == FirstPass(cfg, chunks, |cfg.priorityTiers|)
    ensures remaining == Room(cfg, a)
  {
    var reserves := TierBudgets(cfg);
    var groups := GroupByTier(chunks);
    a, remaining := Allotment([], map[]), cfg.tokenBudget;
    for i := 0 to |cfg.priorityTiers|
      invariant a == FirstPass(cfg, chunks, i)
      invariant remaining == Room(cfg, a)
    {
      a, remaining := TakeTier(cfg, a, remaining, cfg.priorityTiers[i].name, reserves, groups, chunks);
    }
  }

  method FillLeftovers(cfg: HybridConfig, chunks: seq<ScoredChunk>, first: Allotment, room: int) returns (a: Allotment)
    requires room == Room(cfg, first)
    ensures a == Fill(cfg, chunks, first)
  {
    var usedKeys := KeysOf(first.chosen, KeyOf);
    var remaining := room;
    a := first;
    ghost var offered := [];
    for i := 0 to |chunks|
      invariant offered == chunks[..i]
      invariant a == Fill(cfg, offered, first)
      invariant usedKeys == KeysOf(a.chosen, KeyOf)
      invariant remaining == Room(cfg, a)
    {
      var c := chunks[i];
      FillStep(cfg, offered, first, c);
      if KeyOf(c) !in usedKeys && c.estimatedTokens <= remaining {
        AddRoom(cfg, a, c);
        a := AddChunk(a, c);
        usedKeys := usedKeys + {KeyOf(c)};
        remaining := remaining - c.estimatedTokens;
      }
      offered := offered + [c];
    }
    assert offered == chunks;
  }

  lemma AddRoom(cfg: HybridConfig, a: Allotment, c: ScoredChunk)
    ensures Room(cfg, AddChunk(a, c)) == Room(cfg, a) - c.estimatedTokens
    ensures KeysOf(AddChunk(a, c).chosen, KeyOf) == KeysOf(a.chosen, KeyOf) + {KeyOf(c)}
  {
    TotalAppend(a.chosen, c, Tokens);
    assert AddChunk(a, c).chosen[..|a.chosen|] == a.chosen;
  }

  lemma FillStep(cfg: HybridConfig, chunks: seq<ScoredChunk>, a: Allotment, c: ScoredChunk)
    ensures Fill(cfg, chunks + [c], a)
         == if Fills(cfg, Fill(cfg, chunks, a), c) then AddChunk(Fill(cfg, chunks, a), c) else Fill(cfg, chunks, a)
  {
    assert (chunks + [c])[..|chunks|] == chunks;
  }

  /** Without a positive budget everything passes and there is no breakdown. Otherwise the result is
      what the two passes allot, re-sorted, with the tokens they booked. */
  method FitToTokenBudget(cfg: HybridConfig, chunks: seq<ScoredChunk>)
    returns (selected: seq<ScoredChunk>, breakdown: map<string, int>)
    ensures cfg.tokenBudget <= 0 ==> selected == chunks && breakdown == map[]
    ensures cfg.tokenBudget > 0 ==>
              && multiset(selected) == multiset(Allot(cfg, chunks).chosen)
              && Sorted(selected, HigherFirst)
              && breakdown == Allot(cfg, chunks).booked
  {
    if cfg.tokenBudget <= 0 {
      return chunks, map[];
    }
    var a, remaining := AllocateReserves(cfg, chunks);
    if remaining > 0 {
      a := FillLeftovers(cfg, chunks, a, remaining);
    }
    selected := SortBy(a.chosen, HigherFirst);
    breakdown := a.booked;
  }
}
