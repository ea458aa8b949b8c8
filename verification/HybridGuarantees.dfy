/** What the two-pass allocation promises, for every list of chunks and every configuration. */
module HybridGuarantees {
  import opened Budgets
  import opened Chunks
  import opened Keyed
  import opened HybridModel
  import opened HybridAllocation
  import opened HybridStages
  import opened Text

  ghost predicate DistinctTiers(cfg: HybridConfig) {
    forall i, j | 0 <= i < j < |cfg.priorityTiers| :: cfg.priorityTiers[i].name != cfg.priorityTiers[j].name
  }

  ghost predicate NonNegativeShares(cfg: HybridConfig) {
    forall t | t in cfg.priorityTiers :: t.percentage >= 0.0
  }

  /** The tokens reserved under a tier name. */
  function ReservedFor(cfg: HybridConfig, name: string): int {
    Booked(Reserves(cfg, cfg.priorityTiers), name)
  }

  /** A tier of the configuration with a reserve that is not negative. */
  ghost predicate HasReserve(cfg: HybridConfig, name: string) {
    name in Reserves(cfg, cfg.priorityTiers) && Reserves(cfg, cfg.priorityTiers)[name] >= 0
  }

  /** No two tiers share a name that has a reserve. */
  ghost predicate DistinctReserves(cfg: HybridConfig) {
    forall i, j | 0 <= i < j < |cfg.priorityTiers| ::
      cfg.priorityTiers[i].name == cfg.priorityTiers[j].name ==> !HasReserve(cfg, cfg.priorityTiers[i].name)
  }

  /** Lists as scoring and tier assignment hand them over: sorted by score, with distinct keys, every
      chunk in a tier its score belongs to. */
  ghost predicate Admissible(cfg: HybridConfig, chunks: seq<ScoredChunk>) {
    && Sorted(chunks, HigherFirst)
    && DistinctBy(chunks, KeyOf)
    && forall c | c in chunks :: BelongsTo(cfg.priorityTiers, c.combinedScore, c.priorityTier)
  }

  /** A chunk of the given content that scores just what the tier asks for, found by the vector search
      alone; when vector scores have a weight, its own vector score brings it there. */
  function ChunkAt(cfg: HybridConfig, t: PriorityTier, id: string, content: string, tokens: nat): ScoredChunk {
    var v := if cfg.vectorWeight == 0.0 then 0.0 else t.minScore / cfg.vectorWeight;
    ScoredChunk(RetrievedChunk(id, "doc", "", content, 1, 1, v, "", map[]),
                v, 0.0, 0.0, 1.0, t.minScore, FromVector, t.name, tokens)
  }

  // ---- tiers and reserves ----

  lemma {:induction false} InTierMember(chunks: seq<ScoredChunk>, name: string, c: ScoredChunk)
    ensures c in InTier(chunks, name) <==> c in chunks && c.priorityTier == name
  {
    if chunks != [] {
      var init, last := chunks[..|chunks| - 1], chunks[|chunks| - 1];
      InTierMember(init, name, c);
      assert chunks == init + [last];
    }
  }

  lemma {:induction false} InTierDistinct(chunks: seq<ScoredChunk>, name: string)
    requires DistinctBy(chunks, KeyOf)
    ensures DistinctBy(InTier(chunks, name), KeyOf)
  {
    if chunks != [] {
      var init := chunks[..|chunks| - 1];
      var own := InTier(init, name);
      InTierDistinct(init, name);
      forall i | 0 <= i < |own| ensures KeyOf(own[i]) != KeyOf(chunks[|chunks| - 1]) {
        InTierMember(init, name, own[i]);
      }
    }
  }

  lemma {:induction false} ReservesOfTiers(cfg: HybridConfig, tiers: seq<PriorityTier>, i: nat)
    requires i < |tiers|
    ensures tiers[i].name in Reserves(cfg, tiers)
    ensures (forall j | i < j < |tiers| :: tiers[j].name != tiers[i].name) ==>
              Reserves(cfg, tiers)[tiers[i].name] == TierReserve(cfg, tiers[i])
    ensures exists j :: 0 <= j < |tiers| && Reserves(cfg, tiers)[tiers[i].name] == TierReserve(cfg, tiers[j])
  {
    var n := |tiers| - 1;
    if i < n {
      ReservesOfTiers(cfg, tiers[..n], i);
      if tiers[n].name == tiers[i].name {
        assert Reserves(cfg, tiers)[tiers[i].name] == TierReserve(cfg, tiers[n]);
      } else {
        var j :| 0 <= j < n && Reserves(cfg, tiers[..n])[tiers[i].name] == TierReserve(cfg, tiers[..n][j]);
        assert tiers[..n][j] == tiers[j];
      }
    } else {
      assert Reserves(cfg, tiers)[tiers[i].name] == TierReserve(cfg, tiers[n]);
    }
  }

  lemma ReserveNotNegative(cfg: HybridConfig, t: PriorityTier)
    requires cfg.tokenBudget > 0 && t.percentage >= 0.0
    ensures 0 <= TierReserve(cfg, t)
    ensures TierReserve(cfg, t) as real <= cfg.tokenBudget as real * t.percentage
  {
  }

  /** The reserve is the share in whole tokens, toward zero, cut to the tier's maximum where it has one:
      the largest number of tokens that neither exceeds. */
  lemma ReserveIsShare(cfg: HybridConfig, t: PriorityTier)
    ensures var share, reserve := cfg.tokenBudget as real * t.percentage, TierReserve(cfg, t);
            && (t.maxTokens > 0 ==> reserve <= t.maxTokens)
            && (share >= 0.0 ==> 0 <= reserve && reserve as real <= share)
            && (share >= 0.0 ==> share < (reserve + 1) as real || reserve == t.maxTokens > 0)
            && (share < 0.0 ==> reserve <= 0 && share <= reserve as real < share + 1.0)
  {
  }

  /** What a tier takes in the first pass never exceeds its maximum, where it has one. */
  lemma MaximumHolds(cfg: HybridConfig, chunks: seq<ScoredChunk>, i: nat)
    requires DistinctTiers(cfg) && i < |cfg.priorityTiers| && cfg.priorityTiers[i].maxTokens > 0
    ensures Total(TierTake(cfg, chunks, FirstPass(cfg, chunks, i), cfg.priorityTiers[i].name), Tokens)
         <= cfg.priorityTiers[i].maxTokens
  {
    var name, a := cfg.priorityTiers[i].name, FirstPass(cfg, chunks, i);
    OwnReserve(cfg, i);
    ReserveIsShare(cfg, cfg.priorityTiers[i]);
    GreedyBounds(InTier(chunks, name), Tokens, Min(ReservedFor(cfg, name), Room(cfg, a)));
  }

  // ---- budget and membership ----

  lemma TakeBounds(cfg: HybridConfig, chunks: seq<ScoredChunk>, a: Allotment, name: string)
    requires Room(cfg, a) >= 0
    ensures Total(TierTake(cfg, chunks, a, name), Tokens) <= Room(cfg, a)
    ensures forall c | c in TierTake(cfg, chunks, a, name) :: c in chunks && c.priorityTier == name
    ensures DistinctBy(chunks, KeyOf) ==> DistinctBy(TierTake(cfg, chunks, a, name), KeyOf)
  {
    var own, budget := InTier(chunks, name), Min(Booked(Reserves(cfg, cfg.priorityTiers), name), Room(cfg, a));
    GreedyBounds(own, Tokens, budget);
    forall c | c in TierTake(cfg, chunks, a, name) ensures c in chunks && c.priorityTier == name {
      InTierMember(chunks, name, c);
    }
    if DistinctBy(chunks, KeyOf) {
      InTierDistinct(chunks, name);
      GreedyDistinct(own, budget);
    }
  }

  lemma {:induction false} GreedyDistinct(s: seq<ScoredChunk>, budget: int)
    requires DistinctBy(s, KeyOf)
    ensures DistinctBy(Greedy(s, Tokens, budget), KeyOf)
  {
    if s != [] {
      var init := s[..|s| - 1];
      GreedyDistinct(init, budget);
      GreedyBounds(init, Tokens, budget);
      var g := Greedy(init, Tokens, budget);
      forall i | 0 <= i < |g| ensures KeyOf(g[i]) != KeyOf(s[|s| - 1]) {
        assert g[i] in init;
      }
    }
  }

  /** One of the first n tiers has this name. */
  ghost predicate NamedAmong(cfg: HybridConfig, n: nat, name: string)
    requires n <= |cfg.priorityTiers|
  {
    exists i :: 0 <= i < n && cfg.priorityTiers[i].name == name
  }

  /** What a turn does to the room and the members. */
  lemma TurnBounds(cfg: HybridConfig, chunks: seq<ScoredChunk>, a: Allotment, name: string)
    requires Room(cfg, a) >= 0
    ensures 0 <= Room(cfg, TierTurn(cfg, chunks, a, name))
    ensures Room(cfg, TierTurn(cfg, chunks, a, name)) == Room(cfg, a) - Total(TierTake(cfg, chunks, a, name), Tokens)
    ensures forall c | c in TierTurn(cfg, chunks, a, name).chosen ::
              c in a.chosen || (c in chunks && c.priorityTier == name)
  {
    TakeBounds(cfg, chunks, a, name);
    TotalConcat(a.chosen, TierTake(cfg, chunks, a, name), Tokens);
  }

  /** Everything chosen comes from the chunks and from those of the first n tiers that have a reserve. */
  ghost predicate ChosenAmong(cfg: HybridConfig, chunks: seq<ScoredChunk>, a: Allotment, n: nat)
    requires n <= |cfg.priorityTiers|
  {
    forall c | c in a.chosen :: c in chunks && NamedAmong(cfg, n, c.priorityTier) && HasReserve(cfg, c.priorityTier)
  }

  /** A tier without a reserve takes nothing. */
  lemma TakeNeedsReserve(cfg: HybridConfig, chunks: seq<ScoredChunk>, a: Allotment, n: nat)
    requires n < |cfg.priorityTiers|
    ensures TierTake(cfg, chunks, a, cfg.priorityTiers[n].name) != [] ==> HasReserve(cfg, cfg.priorityTiers[n].name)
  {
    var name := cfg.priorityTiers[n].name;
    ReservesOfTiers(cfg, cfg.priorityTiers, n);
    if !HasReserve(cfg, name) {
      GreedyNothing(InTier(chunks, name), Tokens, Min(Booked(Reserves(cfg, cfg.priorityTiers), name), Room(cfg, a)));
    }
  }

  lemma TurnChosenAmong(cfg: HybridConfig, chunks: seq<ScoredChunk>, a: Allotment, n: nat)
    requires n < |cfg.priorityTiers| && Room(cfg, a) >= 0 && ChosenAmong(cfg, chunks, a, n)
    ensures ChosenAmong(cfg, chunks, TierTurn(cfg, chunks, a, cfg.priorityTiers[n].name), n + 1)
  {
    var name := cfg.priorityTiers[n].name;
    var turn, take := TierTurn(cfg, chunks, a, name), TierTake(cfg, chunks, a, name);
    TakeBounds(cfg, chunks, a, name);
    TakeNeedsReserve(cfg, chunks, a, n);
    forall c | c in turn.chosen
      ensures c in chunks && NamedAmong(cfg, n + 1, c.priorityTier) && HasReserve(cfg, c.priorityTier)
    {
      if c in a.chosen {
        assert NamedAmong(cfg, n, c.priorityTier);
      } else {
        assert c in take;
        assert cfg.priorityTiers[n].name == c.priorityTier;
      }
    }
  }

  lemma FirstPassBounds(cfg: HybridConfig, chunks: seq<ScoredChunk>, n: nat)
    requires cfg.tokenBudget > 0 && n <= |cfg.priorityTiers|
    ensures Room(cfg, FirstPass(cfg, chunks, n)) >= 0
    ensures ChosenAmong(cfg, chunks, FirstPass(cfg, chunks, n), n)
  {
    var a := Allotment([], map[]);
    for k := 0 to n
      invariant a == FirstPass(cfg, chunks, k)
      invariant Room(cfg, a) >= 0 && ChosenAmong(cfg, chunks, a, k)
    {
      TurnBounds(cfg, chunks, a, cfg.priorityTiers[k].name);
      TurnChosenAmong(cfg, chunks, a, k);
      a := TierTurn(cfg, chunks, a, cfg.priorityTiers[k].name);
    }
  }

  lemma {:induction false} FillBounds(cfg: HybridConfig, chunks: seq<ScoredChunk>, a: Allotment)
    requires Room(cfg, a) >= 0
    ensures 0 <= Room(cfg, Fill(cfg, chunks, a)) <= Room(cfg, a)
    ensures forall c | c in Fill(cfg, chunks, a).chosen :: c in a.chosen || c in chunks
    ensures forall c | c in a.chosen :: c in Fill(cfg, chunks, a).chosen
    ensures DistinctBy(a.chosen, KeyOf) ==> DistinctBy(Fill(cfg, chunks, a).chosen, KeyOf)
  {
    if chunks != [] {
      var before, c := Fill(cfg, chunks[..|chunks| - 1], a), chunks[|chunks| - 1];
      FillBounds(cfg, chunks[..|chunks| - 1], a);
      KeysOfMember(before.chosen, KeyOf, KeyOf(c));
      assert AddChunk(before, c).chosen[..|before.chosen|] == before.chosen;
    }
  }

  /** Safety: the allotment is drawn from the chunks and never exceeds the budget. */
  lemma WithinBudget(cfg: HybridConfig, chunks: seq<ScoredChunk>)
    requires cfg.tokenBudget > 0
    ensures Total(Allot(cfg, chunks).chosen, Tokens) <= cfg.tokenBudget
    ensures forall c | c in Allot(cfg, chunks).chosen :: c in chunks
    ensures forall c | c in FirstPass(cfg, chunks, |cfg.priorityTiers|).chosen :: c in Allot(cfg, chunks).chosen
  {
    var first := FirstPass(cfg, chunks, |cfg.priorityTiers|);
    FirstPassBounds(cfg, chunks, |cfg.priorityTiers|);
    FillBounds(cfg, chunks, first);
  }

  // ---- no chunk twice ----

  /** A turn has nothing in common with what earlier tiers took. */
  lemma TurnDistinct(cfg: HybridConfig, chunks: seq<ScoredChunk>, a: Allotment, n: nat)
    requires n < |cfg.priorityTiers| && DistinctReserves(cfg) && DistinctBy(chunks, KeyOf)
    requires Room(cfg, a) >= 0 && ChosenAmong(cfg, chunks, a, n) && DistinctBy(a.chosen, KeyOf)
    ensures DistinctBy(TierTurn(cfg, chunks, a, cfg.priorityTiers[n].name).chosen, KeyOf)
  {
    var take := TierTake(cfg, chunks, a, cfg.priorityTiers[n].name);
    TakeBounds(cfg, chunks, a, cfg.priorityTiers[n].name);
    TakeNeedsReserve(cfg, chunks, a, n);
    forall i, j | 0 <= i < |a.chosen| && 0 <= j < |take| ensures KeyOf(a.chosen[i]) != KeyOf(take[j]) {
      var x, y := a.chosen[i], take[j];
      assert x in chunks && NamedAmong(cfg, n, x.priorityTier);
      assert y in take;
    }
  }

  lemma NextTurnDistinct(cfg: HybridConfig, chunks: seq<ScoredChunk>, n: nat)
    requires cfg.tokenBudget > 0 && n < |cfg.priorityTiers|
    requires DistinctBy(chunks, KeyOf) && DistinctReserves(cfg) && DistinctBy(FirstPass(cfg, chunks, n).chosen, KeyOf)
    ensures DistinctBy(FirstPass(cfg, chunks, n + 1).chosen, KeyOf)
  {
    FirstPassBounds(cfg, chunks, n);
    TurnDistinct(cfg, chunks, FirstPass(cfg, chunks, n), n);
  }

  lemma FirstPassDistinct(cfg: HybridConfig, chunks: seq<ScoredChunk>, n: nat)
    requires cfg.tokenBudget > 0 && n <= |cfg.priorityTiers|
    requires DistinctBy(chunks, KeyOf) && DistinctReserves(cfg)
    ensures DistinctBy(FirstPass(cfg, chunks, n).chosen, KeyOf)
  {
    for k := 0 to n
      invariant DistinctBy(FirstPass(cfg, chunks, k).chosen, KeyOf)
    {
      NextTurnDistinct(cfg, chunks, k);
    }
  }

  /** No chunk is selected twice, so the selection is a sub-multiset of the input. */
  lemma NoChunkTwice(cfg: HybridConfig, chunks: seq<ScoredChunk>)
    requires cfg.tokenBudget > 0
    requires DistinctBy(chunks, KeyOf) && DistinctReserves(cfg)
    ensures DistinctBy(Allot(cfg, chunks).chosen, KeyOf)
    ensures multiset(Allot(cfg, chunks).chosen) <= multiset(chunks)
  {
    FirstPassDistinct(cfg, chunks, |cfg.priorityTiers|);
    FirstPassBounds(cfg, chunks, |cfg.priorityTiers|);
    FillBounds(cfg, chunks, FirstPass(cfg, chunks, |cfg.priorityTiers|));
    WithinBudget(cfg, chunks);
    DistinctDrawn(Allot(cfg, chunks).chosen, chunks, KeyOf);
  }

  lemma InTierSingle(c: ScoredChunk, name: string)
    ensures InTier([c], name) == if c.priorityTier == name then [c] else []
  {
    var one := [c];
    assert one[..|one| - 1] == [];
    assert InTier([], name) == [];
  }

  // ---- a list of one light chunk ----

  /** A chunk of at most one token that its tier's reserve has room for. */
  predicate IsLight(cfg: HybridConfig, c: ScoredChunk) {
    c.estimatedTokens <= 1 && ReservedFor(cfg, c.priorityTier) >= c.estimatedTokens
  }

  lemma SingleGreedy(c: ScoredChunk, budget: int)
    ensures Greedy([c], Tokens, budget) == if budget >= c.estimatedTokens then [c] else []
    ensures Total([c], Tokens) == c.estimatedTokens
  {
    var one := [c];
    assert one[..|one| - 1] == [];
  }

  /** How often it is taken in m turns of its name. */
  function Copies(cfg: HybridConfig, c: ScoredChunk, m: nat): int {
    if c.estimatedTokens == 0 then m else Min(m, cfg.tokenBudget)
  }

  /** After m turns of its name: the chunk chosen once for each turn while there was room, and booked as
      the last of those turns left it. */
  ghost predicate LightState(cfg: HybridConfig, a: Allotment, c: ScoredChunk, m: nat) {
    && |a.chosen| == Copies(cfg, c, m)
    && Total(a.chosen, Tokens) == Total(a.chosen, TierTokens(c.priorityTier))
                               == (if c.estimatedTokens == 0 then 0 else |a.chosen|)
    && (forall x | x in a.chosen :: x == c)
    && Booked(a.booked, c.priorityTier) == if m >= 1 && Copies(cfg, c, m) == m then c.estimatedTokens else 0
  }

  lemma LightTaken(cfg: HybridConfig, a: Allotment, c: ScoredChunk, m: nat)
    requires c.estimatedTokens <= 1 && LightState(cfg, a, c, m) && Copies(cfg, c, m + 1) == m + 1
    ensures LightState(cfg, Allotment(a.chosen + [c], a.booked[c.priorityTier := c.estimatedTokens]), c, m + 1)
  {
    TotalAppend(a.chosen, c, Tokens);
    TotalAppend(a.chosen, c, TierTokens(c.priorityTier));
  }

  /** The turn of a tier that takes nothing. */
  lemma LightLeft(cfg: HybridConfig, a: Allotment, name: string, c: ScoredChunk, m: nat)
    requires LightState(cfg, a, c, m) && (name == c.priorityTier ==> Copies(cfg, c, m + 1) != m + 1)
    requires cfg.tokenBudget > 0
    ensures LightState(cfg, Allotment(a.chosen, a.booked[name := 0]), c, if name == c.priorityTier then m + 1 else m)
  {
  }

  /** One turn. */
  lemma LightTurnIs(cfg: HybridConfig, a: Allotment, name: string, c: ScoredChunk)
    requires IsLight(cfg, c)
    ensures TierTurn(cfg, [c], a, name)
         == if name == c.priorityTier && Room(cfg, a) >= c.estimatedTokens
            then Allotment(a.chosen + [c], a.booked[name := c.estimatedTokens])
            else Allotment(a.chosen, a.booked[name := 0])
  {
    var none: seq<ScoredChunk> := [];
    var budget := Min(ReservedFor(cfg, name), Room(cfg, a));
    InTierSingle(c, name);
    SingleGreedy(c, budget);
    assert Greedy(none, Tokens, budget) == none && Total(none, Tokens) == 0;
    assert a.chosen + none == a.chosen;
  }

  lemma LightTurn(cfg: HybridConfig, a: Allotment, name: string, c: ScoredChunk, m: nat)
    requires cfg.tokenBudget > 0 && IsLight(cfg, c) && LightState(cfg, a, c, m)
    ensures LightState(cfg, TierTurn(cfg, [c], a, name), c, if name == c.priorityTier then m + 1 else m)
  {
    LightTurnIs(cfg, a, name, c);
    var taken := name == c.priorityTier && Copies(cfg, c, m + 1) == m + 1;
    assert Room(cfg, a) >= c.estimatedTokens <==> Copies(cfg, c, m + 1) == m + 1;
    if taken {
      LightTaken(cfg, a, c, m);
    } else {
      LightLeft(cfg, a, name, c, m);
    }
  }

  /** How many of the first n tiers have this name. */
  function TiersNamed(cfg: HybridConfig, n: nat, name: string): nat
    requires n <= |cfg.priorityTiers|
  {
    if n == 0 then 0 else TiersNamed(cfg, n - 1, name) + if cfg.priorityTiers[n - 1].name == name then 1 else 0
  }

  lemma {:induction false} SharedNameCounts(cfg: HybridConfig, i: nat, j: nat, n: nat)
    requires i < n <= |cfg.priorityTiers|
    ensures TiersNamed(cfg, n, cfg.priorityTiers[i].name) >= 1
    ensures i < j < n && cfg.priorityTiers[i].name == cfg.priorityTiers[j].name ==>
              TiersNamed(cfg, n, cfg.priorityTiers[i].name) >= 2
  {
    if i < n - 1 {
      SharedNameCounts(cfg, i, j, n - 1);
    }
  }

  lemma NextLightTurn(cfg: HybridConfig, c: ScoredChunk, n: nat)
    requires cfg.tokenBudget > 0 && IsLight(cfg, c) && n < |cfg.priorityTiers|
    requires LightState(cfg, FirstPass(cfg, [c], n), c, TiersNamed(cfg, n, c.priorityTier))
    ensures LightState(cfg, FirstPass(cfg, [c], n + 1), c, TiersNamed(cfg, n + 1, c.priorityTier))
  {
    LightTurn(cfg, FirstPass(cfg, [c], n), cfg.priorityTiers[n].name, c, TiersNamed(cfg, n, c.priorityTier));
  }

  lemma LightPass(cfg: HybridConfig, c: ScoredChunk, n: nat)
    requires cfg.tokenBudget > 0 && IsLight(cfg, c) && n <= |cfg.priorityTiers|
    ensures LightState(cfg, FirstPass(cfg, [c], n), c, TiersNamed(cfg, n, c.priorityTier))
  {
    for k := 0 to n
      invariant LightState(cfg, FirstPass(cfg, [c], k), c, TiersNamed(cfg, k, c.priorityTier))
    {
      NextLightTurn(cfg, c, k);
    }
  }

  /** The second pass does not offer it again. */
  lemma LightStays(cfg: HybridConfig, a: Allotment, c: ScoredChunk)
    requires |a.chosen| > 0 && forall x | x in a.chosen :: x == c
    ensures Fill(cfg, [c], a) == a
  {
    var chunks := [c];
    assert chunks[..|chunks| - 1] == [];
    assert a.chosen[0] in a.chosen;
    KeysOfMember(a.chosen, KeyOf, KeyOf(c));
  }

  /** Two tiers of its name both take it, as far as there is room. */
  lemma SharedLight(cfg: HybridConfig, i: nat, j: nat, c: ScoredChunk) returns (m: nat)
    requires cfg.tokenBudget > 0 && i < j < |cfg.priorityTiers| && IsLight(cfg, c)
    requires cfg.priorityTiers[i].name == cfg.priorityTiers[j].name == c.priorityTier
    ensures m >= 2 && LightState(cfg, Allot(cfg, [c]), c, m)
  {
    var n := |cfg.priorityTiers|;
    m := TiersNamed(cfg, n, c.priorityTier);
    LightPass(cfg, c, n);
    SharedNameCounts(cfg, i, j, n);
    LightStays(cfg, FirstPass(cfg, [c], n), c);
  }

  /** Names of tiers with a reserve must be distinct, and that is all: with a positive budget every
      admissible list is selected without repetition exactly when no two tiers share a name that has a
      reserve. */
  lemma RepetitionExactly(cfg: HybridConfig)
    requires cfg.tokenBudget > 0
    ensures (forall chunks | Admissible(cfg, chunks) :: DistinctBy(Allot(cfg, chunks).chosen, KeyOf))
       <==> DistinctReserves(cfg)
  {
    if DistinctReserves(cfg) {
      forall chunks | Admissible(cfg, chunks) ensures DistinctBy(Allot(cfg, chunks).chosen, KeyOf) {
        NoChunkTwice(cfg, chunks);
      }
    } else {
      var i, j :| 0 <= i < j < |cfg.priorityTiers| && cfg.priorityTiers[i].name == cfg.priorityTiers[j].name
            && HasReserve(cfg, cfg.priorityTiers[i].name);
      RepetitionExample(cfg, i, j);
    }
  }

  function EmptyChunk(cfg: HybridConfig, t: PriorityTier): ScoredChunk {
    ChunkAt(cfg, t, "id", "", 0)
  }

  lemma RepetitionExample(cfg: HybridConfig, i: nat, j: nat)
    requires cfg.tokenBudget > 0 && i < j < |cfg.priorityTiers|
    requires cfg.priorityTiers[i].name == cfg.priorityTiers[j].name && HasReserve(cfg, cfg.priorityTiers[i].name)
    ensures !DistinctBy(Allot(cfg, [EmptyChunk(cfg, cfg.priorityTiers[i])]).chosen, KeyOf)
  {
    var m := SharedLight(cfg, i, j, EmptyChunk(cfg, cfg.priorityTiers[i]));
    var chosen := Allot(cfg, [EmptyChunk(cfg, cfg.priorityTiers[i])]).chosen;
    assert chosen[0] in chosen && chosen[1] in chosen;
  }

  // ---- conservation ----

  lemma {:induction false} OwnTierTotal(s: seq<ScoredChunk>, tier: string, name: string)
    requires forall c | c in s :: c.priorityTier == tier
    ensures Total(s, TierTokens(name)) == if name == tier then Total(s, Tokens) else 0
  {
    if s != [] {
      assert forall c | c in s[..|s| - 1] :: c in s;
      OwnTierTotal(s[..|s| - 1], tier, name);
      assert s[|s| - 1] in s;
    }
  }

  lemma {:induction false} NothingBooked(s: seq<ScoredChunk>, name: string)
    requires forall c | c in s && c.priorityTier == name :: c.estimatedTokens == 0
    ensures Total(s, TierTokens(name)) == 0
  {
    if s != [] {
      assert forall c | c in s[..|s| - 1] :: c in s;
      NothingBooked(s[..|s| - 1], name);
      assert s[|s| - 1] in s;
    }
  }

  /** What is booked on the tier is what its chosen chunks weigh. */
  ghost predicate ExactlyBooked(a: Allotment, name: string) {
    Booked(a.booked, name) == Total(a.chosen, TierTokens(name))
  }

  /** No two tiers share a name with a token or more in reserve. */
  ghost predicate DistinctBookings(cfg: HybridConfig) {
    forall i, j | 0 <= i < j < |cfg.priorityTiers| ::
      cfg.priorityTiers[i].name == cfg.priorityTiers[j].name ==> ReservedFor(cfg, cfg.priorityTiers[i].name) <= 0
  }

  /** Under a name without a token in reserve only empty chunks are chosen. */
  ghost predicate LightUnlessReserved(cfg: HybridConfig, a: Allotment) {
    forall c | c in a.chosen && ReservedFor(cfg, c.priorityTier) <= 0 :: c.estimatedTokens == 0
  }

  lemma TurnKeepsLight(cfg: HybridConfig, chunks: seq<ScoredChunk>, a: Allotment, name: string)
    requires LightUnlessReserved(cfg, a) && Room(cfg, a) >= 0
    ensures LightUnlessReserved(cfg, TierTurn(cfg, chunks, a, name))
  {
    var take := TierTake(cfg, chunks, a, name);
    TakeBounds(cfg, chunks, a, name);
    GreedyBounds(InTier(chunks, name), Tokens, Min(ReservedFor(cfg, name), Room(cfg, a)));
    forall c | c in take && ReservedFor(cfg, c.priorityTier) <= 0 ensures c.estimatedTokens == 0 {
      var i :| 0 <= i < |take| && take[i] == c;
      TotalCovers(take, i, Tokens);
    }
  }

  /** What one tier's turn books. */
  lemma TurnBooks(cfg: HybridConfig, chunks: seq<ScoredChunk>, a: Allotment, n: nat, name: string)
    requires n < |cfg.priorityTiers| && DistinctBookings(cfg)
    requires Room(cfg, a) >= 0 && ChosenAmong(cfg, chunks, a, n) && LightUnlessReserved(cfg, a)
    requires ExactlyBooked(a, name)
    ensures ExactlyBooked(TierTurn(cfg, chunks, a, cfg.priorityTiers[n].name), name)
  {
    var tier := cfg.priorityTiers[n].name;
    var take := TierTake(cfg, chunks, a, tier);
    TakeBounds(cfg, chunks, a, tier);
    TotalConcat(a.chosen, take, TierTokens(name));
    OwnTierTotal(take, tier, name);
    if name == tier {
      forall c | c in a.chosen && c.priorityTier == name ensures c.estimatedTokens == 0 {
        assert NamedAmong(cfg, n, c.priorityTier);
      }
      NothingBooked(a.chosen, name);
    }
  }

  lemma NextTurnBooks(cfg: HybridConfig, chunks: seq<ScoredChunk>, n: nat, name: string)
    requires cfg.tokenBudget > 0 && n < |cfg.priorityTiers| && DistinctBookings(cfg)
    requires ExactlyBooked(FirstPass(cfg, chunks, n), name) && LightUnlessReserved(cfg, FirstPass(cfg, chunks, n))
    ensures ExactlyBooked(FirstPass(cfg, chunks, n + 1), name)
    ensures LightUnlessReserved(cfg, FirstPass(cfg, chunks, n + 1))
  {
    FirstPassBounds(cfg, chunks, n);
    TurnBooks(cfg, chunks, FirstPass(cfg, chunks, n), n, name);
    TurnKeepsLight(cfg, chunks, FirstPass(cfg, chunks, n), cfg.priorityTiers[n].name);
  }

  lemma FirstPassBooks(cfg: HybridConfig, chunks: seq<ScoredChunk>, n: nat, name: string)
    requires cfg.tokenBudget > 0 && n <= |cfg.priorityTiers| && DistinctBookings(cfg)
    ensures ExactlyBooked(FirstPass(cfg, chunks, n), name)
  {
    for k := 0 to n
      invariant ExactlyBooked(FirstPass(cfg, chunks, k), name)
      invariant LightUnlessReserved(cfg, FirstPass(cfg, chunks, k))
    {
      NextTurnBooks(cfg, chunks, k, name);
    }
  }

  lemma AddBooks(a: Allotment, c: ScoredChunk, name: string)
    requires ExactlyBooked(a, name)
    ensures ExactlyBooked(AddChunk(a, c), name)
  {
    TotalAppend(a.chosen, c, TierTokens(name));
  }

  lemma {:induction false} FillBooks(cfg: HybridConfig, chunks: seq<ScoredChunk>, a: Allotment, name: string)
    requires ExactlyBooked(a, name)
    ensures ExactlyBooked(Fill(cfg, chunks, a), name)
  {
    if chunks != [] {
      FillBooks(cfg, chunks[..|chunks| - 1], a, name);
      AddBooks(Fill(cfg, chunks[..|chunks| - 1], a), chunks[|chunks| - 1], name);
    }
  }

  /** Conservation: what is booked on each tier is what its selected chunks weigh. */
  lemma BreakdownIsExact(cfg: HybridConfig, chunks: seq<ScoredChunk>, name: string)
    requires cfg.tokenBudget > 0 && DistinctBookings(cfg)
    ensures ExactlyBooked(Allot(cfg, chunks), name)
  {
    FirstPassBooks(cfg, chunks, |cfg.priorityTiers|, name);
    FillBooks(cfg, chunks, FirstPass(cfg, chunks, |cfg.priorityTiers|), name);
  }

  /** A chunk of one token. */
  function Token(cfg: HybridConfig, t: PriorityTier): ScoredChunk {
    ChunkAt(cfg, t, "id", "abcd", 1)
  }

  /** Two tiers of one name that has a token in reserve both take it, and at most one is booked. */
  lemma BookingLost(cfg: HybridConfig, i: nat, j: nat)
    requires cfg.tokenBudget > 0 && i < j < |cfg.priorityTiers|
    requires cfg.priorityTiers[i].name == cfg.priorityTiers[j].name
    requires ReservedFor(cfg, cfg.priorityTiers[i].name) >= 1
    ensures !ExactlyBooked(Allot(cfg, [Token(cfg, cfg.priorityTiers[i])]), cfg.priorityTiers[i].name)
  {
    var m := SharedLight(cfg, i, j, Token(cfg, cfg.priorityTiers[i]));
  }

  /** Exactly when the breakdown can be trusted: with a positive budget it is exact for every admissible
      list and every tier name if and only if no two tiers share a name with a token in reserve. */
  lemma BreakdownExactly(cfg: HybridConfig)
    requires cfg.tokenBudget > 0
    ensures (forall chunks, name | Admissible(cfg, chunks) :: ExactlyBooked(Allot(cfg, chunks), name))
       <==> DistinctBookings(cfg)
  {
    if DistinctBookings(cfg) {
      forall chunks, name | Admissible(cfg, chunks) ensures ExactlyBooked(Allot(cfg, chunks), name) {
        BreakdownIsExact(cfg, chunks, name);
      }
    } else {
      var i, j :| 0 <= i < j < |cfg.priorityTiers| && cfg.priorityTiers[i].name == cfg.priorityTiers[j].name
            && ReservedFor(cfg, cfg.priorityTiers[i].name) >= 1;
      BookingLost(cfg, i, j);
    }
  }

  // ---- order ----

  /** The second pass decides each chunk on its own turn: what is offered later changes nothing for it. */
  lemma {:induction false} FillDecides(cfg: HybridConfig, chunks: seq<ScoredChunk>, a: Allotment, n: nat)
    requires n < |chunks|
    ensures var before := Fill(cfg, chunks[..n], a);
            before.chosen + (if Fills(cfg, before, chunks[n]) then [chunks[n]] else [])
            <= Fill(cfg, chunks, a).chosen
  {
    if n == |chunks| - 1 {
      assert chunks[..n] == chunks[..|chunks| - 1];
    } else {
      FillDecides(cfg, chunks[..|chunks| - 1], a, n);
      assert chunks[..|chunks| - 1][..n] == chunks[..n];
    }
  }

  // ---- maximality ----

  /** c is in, has not been offered yet, or is larger than the room left. */
  ghost predicate OutForSize(cfg: HybridConfig, a: Allotment, offered: seq<ScoredChunk>, c: ScoredChunk) {
    KeyOf(c) in KeysOf(a.chosen, KeyOf) || c !in offered || c.estimatedTokens > Room(cfg, a)
  }

  lemma OfferKeepsOut(cfg: HybridConfig, a: Allotment, offered: seq<ScoredChunk>, x: ScoredChunk, c: ScoredChunk)
    requires OutForSize(cfg, a, offered, c)
    ensures OutForSize(cfg, if Fills(cfg, a, x) then AddChunk(a, x) else a, offered + [x], c)
  {
    assert c in offered + [x] <==> c in offered || c == x;
  }

  /** A chunk still out after the fill was too large for the room left at its turn, and so for less. */
  lemma {:induction false} FillSkipsOnlyTooLarge(cfg: HybridConfig, chunks: seq<ScoredChunk>, a: Allotment,
                                                 c: ScoredChunk)
    ensures OutForSize(cfg, Fill(cfg, chunks, a), chunks, c)
  {
    if chunks != [] {
      var init, last := chunks[..|chunks| - 1], chunks[|chunks| - 1];
      FillSkipsOnlyTooLarge(cfg, init, a, c);
      OfferKeepsOut(cfg, Fill(cfg, init, a), init, last, c);
      assert chunks == init + [last];
    }
  }

  lemma {:induction false} FirstPassKeeps(cfg: HybridConfig, chunks: seq<ScoredChunk>, m: nat, n: nat)
    requires m <= n <= |cfg.priorityTiers|
    ensures FirstPass(cfg, chunks, m).chosen <= FirstPass(cfg, chunks, n).chosen
  {
    if m < n {
      FirstPassKeeps(cfg, chunks, m, n - 1);
      var a := FirstPass(cfg, chunks, n - 1);
      assert a.chosen <= TierTurn(cfg, chunks, a, cfg.priorityTiers[n - 1].name).chosen;
    }
  }

  /** What a tier takes at its turn stays. */
  lemma TurnStays(cfg: HybridConfig, chunks: seq<ScoredChunk>, i: nat, c: ScoredChunk)
    requires i < |cfg.priorityTiers|
    requires c in TierTurn(cfg, chunks, FirstPass(cfg, chunks, i), cfg.priorityTiers[i].name).chosen
    ensures c in FirstPass(cfg, chunks, |cfg.priorityTiers|).chosen
  {
    FirstPassKeeps(cfg, chunks, i + 1, |cfg.priorityTiers|);
    PrefixMember(FirstPass(cfg, chunks, i + 1).chosen, FirstPass(cfg, chunks, |cfg.priorityTiers|).chosen, c);
  }

  lemma PrefixMember(r: seq<ScoredChunk>, s: seq<ScoredChunk>, c: ScoredChunk)
    requires r <= s && c in r
    ensures c in s
  {
    var i :| 0 <= i < |r| && r[i] == c;
    assert s[i] == c;
  }

  lemma {:induction false} ReserveHasTier(cfg: HybridConfig, tiers: seq<PriorityTier>, name: string)
    requires name in Reserves(cfg, tiers)
    ensures exists i :: 0 <= i < |tiers| && tiers[i].name == name
  {
    if tiers[|tiers| - 1].name != name {
      ReserveHasTier(cfg, tiers[..|tiers| - 1], name);
      var i :| 0 <= i < |tiers| - 1 && tiers[..|tiers| - 1][i].name == name;
      assert tiers[i].name == name;
    }
  }

  /** The first pass always takes an empty chunk of a tier that has a reserve. */
  lemma EmptyChunkTaken(cfg: HybridConfig, chunks: seq<ScoredChunk>, c: ScoredChunk)
    requires cfg.tokenBudget > 0
    requires c in chunks && c.estimatedTokens == 0 && HasReserve(cfg, c.priorityTier)
    ensures c in FirstPass(cfg, chunks, |cfg.priorityTiers|).chosen
  {
    ReserveHasTier(cfg, cfg.priorityTiers, c.priorityTier);
    var i :| 0 <= i < |cfg.priorityTiers| && cfg.priorityTiers[i].name == c.priorityTier;
    FirstPassBounds(cfg, chunks, i);
    EmptyChunkFits(cfg, chunks, FirstPass(cfg, chunks, i), c);
    TurnStays(cfg, chunks, i, c);
  }

  lemma EmptyChunkFits(cfg: HybridConfig, chunks: seq<ScoredChunk>, a: Allotment, c: ScoredChunk)
    requires Room(cfg, a) >= 0
    requires c in chunks && c.estimatedTokens == 0 && HasReserve(cfg, c.priorityTier)
    ensures c in TierTurn(cfg, chunks, a, c.priorityTier).chosen
  {
    InTierMember(chunks, c.priorityTier, c);
    GreedyBounds(InTier(chunks, c.priorityTier), Tokens,
                 Min(Booked(Reserves(cfg, cfg.priorityTiers), c.priorityTier), Room(cfg, a)));
  }

  lemma KeyStaysOut(chosen: seq<ScoredChunk>, chunks: seq<ScoredChunk>, c: ScoredChunk)
    requires DistinctBy(chunks, KeyOf) && forall x | x in chosen :: x in chunks
    requires c in chunks && c !in chosen
    ensures KeyOf(c) !in KeysOf(chosen, KeyOf)
  {
    KeysOfMember(chosen, KeyOf, KeyOf(c));
    forall i | 0 <= i < |chosen| ensures KeyOf(chosen[i]) != KeyOf(c) {
      assert chosen[i] in chosen;
    }
  }

  /** A first pass without room chooses no chunk whose tier has no reserve. */
  lemma NoReserveNoChoice(cfg: HybridConfig, chunks: seq<ScoredChunk>, c: ScoredChunk)
    requires cfg.tokenBudget > 0 && !HasReserve(cfg, c.priorityTier)
    requires Room(cfg, FirstPass(cfg, chunks, |cfg.priorityTiers|)) == 0
    ensures c !in Allot(cfg, chunks).chosen && Room(cfg, Allot(cfg, chunks)) == 0
  {
    FirstPassBounds(cfg, chunks, |cfg.priorityTiers|);
  }

  /** Maximality: a chunk is left out only when it is larger than the room the selection leaves, with
      exactly one exception, for any percentages at all: an empty chunk whose tier has no reserve, when
      the first pass has used the budget up to the last token. */
  lemma LeftOutIsTooLarge(cfg: HybridConfig, chunks: seq<ScoredChunk>, c: ScoredChunk)
    requires cfg.tokenBudget > 0 && DistinctBy(chunks, KeyOf) && c in chunks
    ensures c !in Allot(cfg, chunks).chosen && c.estimatedTokens <= Room(cfg, Allot(cfg, chunks))
       <==> c.estimatedTokens == 0 && !HasReserve(cfg, c.priorityTier)
            && Room(cfg, FirstPass(cfg, chunks, |cfg.priorityTiers|)) == 0
  {
    var first := FirstPass(cfg, chunks, |cfg.priorityTiers|);
    FirstPassBounds(cfg, chunks, |cfg.priorityTiers|);
    if Room(cfg, first) > 0 {
      var chosen := Fill(cfg, chunks, first).chosen;
      WithinBudget(cfg, chunks);
      if c !in chosen {
        KeyStaysOut(chosen, chunks, c);
        FillSkipsOnlyTooLarge(cfg, chunks, first, c);
      }
    } else if c.estimatedTokens == 0 {
      if HasReserve(cfg, c.priorityTier) {
        EmptyChunkTaken(cfg, chunks, c);
      } else {
        NoReserveNoChoice(cfg, chunks, c);
      }
    }
  }

  /** A tier that takes everything and one with a negative percentage. */
  function Lopsided(): HybridConfig {
    HybridConfig(1.0, 0.0, 0.0, 1.0, 10, false, false,
                 [PriorityTier("a", 0.5, 0, 1.0), PriorityTier("b", 0.0, 0, -0.1)])
  }

  function Large(): ScoredChunk {
    ChunkAt(Lopsided(), Lopsided().priorityTiers[0], "large", seq(40, _ => 'x'), 10)
  }

  function Empty(): ScoredChunk {
    EmptyChunk(Lopsided(), Lopsided().priorityTiers[1])
  }

  lemma LopsidedReserves()
    ensures Reserves(Lopsided(), Lopsided().priorityTiers) == map["a" := 10, "b" := -1]
    ensures HasReserve(Lopsided(), "a") && !HasReserve(Lopsided(), "b")
  {
    var cfg := Lopsided();
    var tiers := cfg.priorityTiers;
    assert tiers[..1] == [tiers[0]] && tiers[..1][..0] == [];
    assert 10 as real * 1.0 == 10.0 && 10 as real * -0.1 == -1.0;
    assert TierReserve(cfg, tiers[0]) == 10 && TierReserve(cfg, tiers[1]) == -1;
    assert Reserves(cfg, tiers[..1]) == map["a" := 10];
  }

  lemma LopsidedFirstPass()
    ensures Room(Lopsided(), FirstPass(Lopsided(), [Large(), Empty()], 2)) == 0
  {
    var cfg, chunks := Lopsided(), [Large(), Empty()];
    var one := [Large()];
    LopsidedReserves();
    assert chunks[..1] == one;
    InTierSingle(Large(), "a");
    assert InTier(chunks, "a") == one;
    SingleGreedy(Large(), 10);
    var a := FirstPass(cfg, chunks, 1);
    assert a == TierTurn(cfg, chunks, FirstPass(cfg, chunks, 0), "a");
    assert [] + one == one;
    TakeNeedsReserve(cfg, chunks, a, 1);
    assert FirstPass(cfg, chunks, 2) == TierTurn(cfg, chunks, a, "b");
    assert a.chosen + [] == a.chosen;
  }

  lemma LopsidedAdmissible()
    ensures Admissible(Lopsided(), [Large(), Empty()])
  {
    var tiers := Lopsided().priorityTiers;
    assert tiers[0] in tiers && tiers[1] in tiers;
    assert |KeyOf(Large())| == 5 && |KeyOf(Empty())| == 2;
  }

  /** The chunk scores and weighs what the code makes of it. */
  ghost predicate TrueToCode(cfg: HybridConfig, c: ScoredChunk) {
    c.combinedScore == CombinedScore(cfg, c) && c.estimatedTokens == EstimateTokenCount(c.chunk.content)
  }

  lemma LopsidedTrueToCode()
    ensures TrueToCode(Lopsided(), Large()) && TrueToCode(Lopsided(), Empty())
  {
    AsciiBytes(Large().chunk.content);
  }

  lemma LopsidedLeavesOut()
    ensures var cfg, chunks := Lopsided(), [Large(), Empty()];
            && Empty() !in Allot(cfg, chunks).chosen
            && Empty().estimatedTokens == Room(cfg, Allot(cfg, chunks)) == 0
  {
    LopsidedReserves();
    LopsidedFirstPass();
    NoReserveNoChoice(Lopsided(), [Large(), Empty()], Empty());
  }

  /** The exception occurs, on an input whose scores, tiers and estimates are the code's own. */
  lemma EmptyChunkLeftOut()
    ensures var cfg, chunks := Lopsided(), [Large(), Empty()];
            && cfg.tokenBudget > 0 && Admissible(cfg, chunks)
            && TrueToCode(cfg, Large()) && TrueToCode(cfg, Empty())
            && Empty() !in Allot(cfg, chunks).chosen
            && Empty().estimatedTokens == Room(cfg, Allot(cfg, chunks)) == 0
  {
    LopsidedAdmissible();
    LopsidedTrueToCode();
    LopsidedLeavesOut();
  }

  /** The tiers that assignment hands out: all of them configured, or none configured at all. */
  ghost predicate TiersAssigned(cfg: HybridConfig, chunks: seq<ScoredChunk>) {
    || cfg.priorityTiers == []
    || forall c | c in chunks :: NamedAmong(cfg, |cfg.priorityTiers|, c.priorityTier)
  }

  lemma SharesGiveReserves(cfg: HybridConfig, i: nat)
    requires cfg.tokenBudget > 0 && NonNegativeShares(cfg) && i < |cfg.priorityTiers|
    ensures HasReserve(cfg, cfg.priorityTiers[i].name)
  {
    ReservesOfTiers(cfg, cfg.priorityTiers, i);
    var j :| 0 <= j < |cfg.priorityTiers|
          && Reserves(cfg, cfg.priorityTiers)[cfg.priorityTiers[i].name] == TierReserve(cfg, cfg.priorityTiers[j]);
    ReserveNotNegative(cfg, cfg.priorityTiers[j]);
  }

  /** With percentages that are not negative there is no exception. */
  lemma LeftOutIsTooLargeAlways(cfg: HybridConfig, chunks: seq<ScoredChunk>, c: ScoredChunk)
    requires cfg.tokenBudget > 0 && DistinctBy(chunks, KeyOf)
    requires NonNegativeShares(cfg) && TiersAssigned(cfg, chunks)
    requires c in chunks && c !in Allot(cfg, chunks).chosen
    ensures c.estimatedTokens > cfg.tokenBudget - Total(Allot(cfg, chunks).chosen, Tokens)
  {
    LeftOutIsTooLarge(cfg, chunks, c);
    if cfg.priorityTiers != [] {
      assert NamedAmong(cfg, |cfg.priorityTiers|, c.priorityTier);
      var i :| 0 <= i < |cfg.priorityTiers| && cfg.priorityTiers[i].name == c.priorityTier;
      SharesGiveReserves(cfg, i);
    }
  }

  /** If all chunks together fit the budget, all of them are selected. */
  lemma EverythingFits(cfg: HybridConfig, chunks: seq<ScoredChunk>)
    requires cfg.tokenBudget > 0 && DistinctBy(chunks, KeyOf) && DistinctReserves(cfg)
    requires NonNegativeShares(cfg) && TiersAssigned(cfg, chunks)
    requires Total(chunks, Tokens) <= cfg.tokenBudget
    ensures multiset(Allot(cfg, chunks).chosen) == multiset(chunks)
  {
    var chosen := Allot(cfg, chunks).chosen;
    NoChunkTwice(cfg, chunks);
    WithinBudget(cfg, chunks);
    forall c | c in chunks ensures c in chosen {
      if c !in chosen {
        LeftOutIsTooLargeAlways(cfg, chunks, c);
        AddedStillDrawn(chosen, chunks, c);
      }
    }
    DistinctDrawn(chunks, chosen, KeyOf);
  }

  lemma AddedStillDrawn(chosen: seq<ScoredChunk>, chunks: seq<ScoredChunk>, c: ScoredChunk)
    requires DistinctBy(chosen, KeyOf) && DistinctBy(chunks, KeyOf)
    requires forall x | x in chosen :: x in chunks
    requires c in chunks && c !in chosen
    ensures Total(chosen, Tokens) + c.estimatedTokens <= Total(chunks, Tokens)
  {
    var more := chosen + [c];
    assert more[..|chosen|] == chosen;
    KeyStaysOut(chosen, chunks, c);
    forall i | 0 <= i < |chosen| ensures KeyOf(chosen[i]) != KeyOf(c) {
      KeysOfMember(chosen, KeyOf, KeyOf(chosen[i]));
    }
    DistinctDrawn(more, chunks, KeyOf);
    TotalSub(more, chunks, Tokens);
  }

  // ---- reservation ----

  function ShareTotal(tiers: seq<PriorityTier>): real {
    if tiers == [] then 0.0 else ShareTotal(tiers[..|tiers| - 1]) + tiers[|tiers| - 1].percentage
  }

  lemma {:induction false} SharesGrow(tiers: seq<PriorityTier>, n: nat)
    requires n <= |tiers| && forall t | t in tiers :: t.percentage >= 0.0
    ensures ShareTotal(tiers[..n]) <= ShareTotal(tiers)
    decreases |tiers|
  {
    if n < |tiers| {
      var init := tiers[..|tiers| - 1];
      assert forall t | t in init :: t in tiers;
      SharesGrow(init, n);
      assert init[..n] == tiers[..n];
    } else {
      assert tiers[..n] == tiers;
    }
  }

  function SumInt(tiers: seq<PriorityTier>, g: PriorityTier -> int): int {
    if tiers == [] then 0 else SumInt(tiers[..|tiers| - 1], g) + g(tiers[|tiers| - 1])
  }

  function SumReal(tiers: seq<PriorityTier>, f: PriorityTier -> real): real {
    if tiers == [] then 0.0 else SumReal(tiers[..|tiers| - 1], f) + f(tiers[|tiers| - 1])
  }

  lemma {:induction false} SumsCompare(tiers: seq<PriorityTier>, g: PriorityTier -> int, f: PriorityTier -> real)
    requires forall t | t in tiers :: g(t) as real <= f(t)
    ensures SumInt(tiers, g) as real <= SumReal(tiers, f)
  {
    if tiers != [] {
      SumsCompare(tiers[..|tiers| - 1], g, f);
    }
  }

  function ReserveOf(cfg: HybridConfig): PriorityTier -> int {
    (t: PriorityTier) => TierReserve(cfg, t)
  }

  function PortionOf(b: real): PriorityTier -> real {
    (t: PriorityTier) => b * t.percentage
  }

  /** What the first n tiers reserve. */
  function ReserveTotal(cfg: HybridConfig, n: nat): int
    requires n <= |cfg.priorityTiers|
  {
    SumInt(cfg.priorityTiers[..n], ReserveOf(cfg))
  }

  lemma ReserveTotalStep(cfg: HybridConfig, n: nat)
    requires n < |cfg.priorityTiers|
    ensures ReserveTotal(cfg, n + 1) == ReserveTotal(cfg, n) + TierReserve(cfg, cfg.priorityTiers[n])
  {
    assert cfg.priorityTiers[..n + 1][..n] == cfg.priorityTiers[..n];
  }

  lemma ShareBound(b: real, s: real, x: real)
    requires b >= 0.0 && s <= 1.0 && x <= b * s
    ensures x <= b
  {
  }

  lemma {:induction false} PortionsDistribute(tiers: seq<PriorityTier>, b: real)
    ensures SumReal(tiers, PortionOf(b)) == b * ShareTotal(tiers)
  {
    if tiers != [] {
      var s, p := ShareTotal(tiers[..|tiers| - 1]), tiers[|tiers| - 1].percentage;
      PortionsDistribute(tiers[..|tiers| - 1], b);
      assert b * (s + p) == b * s + b * p;
    }
  }

  /** The floors of the shares sum to no more than the share of the sum. */
  lemma ReservesFitPortions(cfg: HybridConfig, n: nat)
    requires cfg.tokenBudget > 0 && NonNegativeShares(cfg) && n <= |cfg.priorityTiers|
    ensures ReserveTotal(cfg, n) as real <= SumReal(cfg.priorityTiers[..n], PortionOf(cfg.tokenBudget as real))
  {
    forall t | t in cfg.priorityTiers[..n]
      ensures ReserveOf(cfg)(t) as real <= PortionOf(cfg.tokenBudget as real)(t)
    {
      ReserveNotNegative(cfg, t);
    }
    SumsCompare(cfg.priorityTiers[..n], ReserveOf(cfg), PortionOf(cfg.tokenBudget as real));
  }

  lemma OwnReserve(cfg: HybridConfig, n: nat)
    requires DistinctTiers(cfg) && n < |cfg.priorityTiers|
    ensures Booked(Reserves(cfg, cfg.priorityTiers), cfg.priorityTiers[n].name)
         == TierReserve(cfg, cfg.priorityTiers[n])
  {
    ReservesOfTiers(cfg, cfg.priorityTiers, n);
  }

  /** A tier takes no more than its reserve. */
  lemma TakeWithinReserve(cfg: HybridConfig, chunks: seq<ScoredChunk>, a: Allotment, n: nat)
    requires cfg.tokenBudget > 0 && DistinctTiers(cfg) && NonNegativeShares(cfg) && n < |cfg.priorityTiers|
    requires Room(cfg, a) >= 0
    ensures Total(TierTake(cfg, chunks, a, cfg.priorityTiers[n].name), Tokens) <= TierReserve(cfg, cfg.priorityTiers[n])
  {
    var t := cfg.priorityTiers[n];
    OwnReserve(cfg, n);
    ReserveNotNegative(cfg, t);
    GreedyBounds(InTier(chunks, t.name), Tokens, Min(TierReserve(cfg, t), Room(cfg, a)));
  }

  /** Before tier n has its turn, the reserves of the earlier tiers bound what is gone. */
  lemma RoomForReserves(cfg: HybridConfig, chunks: seq<ScoredChunk>, n: nat)
    requires cfg.tokenBudget > 0 && DistinctTiers(cfg) && NonNegativeShares(cfg) && n <= |cfg.priorityTiers|
    ensures Room(cfg, FirstPass(cfg, chunks, n)) >= cfg.tokenBudget - ReserveTotal(cfg, n)
  {
    var a := Allotment([], map[]);
    for k := 0 to n
      invariant a == FirstPass(cfg, chunks, k)
      invariant Room(cfg, a) >= cfg.tokenBudget - ReserveTotal(cfg, k)
    {
      FirstPassBounds(cfg, chunks, k);
      TakeWithinReserve(cfg, chunks, a, k);
      TurnBounds(cfg, chunks, a, cfg.priorityTiers[k].name);
      ReserveTotalStep(cfg, k);
      a := TierTurn(cfg, chunks, a, cfg.priorityTiers[k].name);
    }
  }

  /** With shares of at most one in all, the first reserves together fit the budget. */
  lemma ReservesFitBudget(cfg: HybridConfig, n: nat)
    requires cfg.tokenBudget > 0 && NonNegativeShares(cfg) && n <= |cfg.priorityTiers|
    requires ShareTotal(cfg.priorityTiers) <= 1.0
    ensures ReserveTotal(cfg, n) <= cfg.tokenBudget
  {
    var b, s := cfg.tokenBudget as real, ShareTotal(cfg.priorityTiers[..n]);
    ReservesFitPortions(cfg, n);
    PortionsDistribute(cfg.priorityTiers[..n], b);
    SharesGrow(cfg.priorityTiers, n);
    ShareBound(b, s, ReserveTotal(cfg, n) as real);
  }

  /** The reserves up to tier i's fit the budget, or tier i has nothing in reserve. */
  predicate ReserveFits(cfg: HybridConfig, i: nat)
    requires i < |cfg.priorityTiers|
  {
    ReserveTotal(cfg, i + 1) <= cfg.tokenBudget || TierReserve(cfg, cfg.priorityTiers[i]) == 0
  }

  lemma RoomCoversReserve(cfg: HybridConfig, chunks: seq<ScoredChunk>, i: nat)
    requires cfg.tokenBudget > 0 && DistinctTiers(cfg) && NonNegativeShares(cfg)
    requires i < |cfg.priorityTiers| && ReserveFits(cfg, i)
    ensures TierReserve(cfg, cfg.priorityTiers[i]) <= Room(cfg, FirstPass(cfg, chunks, i))
  {
    FirstPassBounds(cfg, chunks, i);
    RoomForReserves(cfg, chunks, i);
    ReserveTotalStep(cfg, i);
  }

  /** Tier i's first-pass take is the scan of its own chunks under its own reserve. */
  ghost predicate KeepsReserve(cfg: HybridConfig, chunks: seq<ScoredChunk>, i: nat)
    requires i < |cfg.priorityTiers|
  {
    TierTake(cfg, chunks, FirstPass(cfg, chunks, i), cfg.priorityTiers[i].name)
    == Greedy(InTier(chunks, cfg.priorityTiers[i].name), Tokens, TierReserve(cfg, cfg.priorityTiers[i]))
  }

  /** Reservation: a reserve that fits the budget together with the earlier ones is never cut short by
      what other tiers took. */
  lemma ReserveIsNeverCut(cfg: HybridConfig, chunks: seq<ScoredChunk>, i: nat)
    requires cfg.tokenBudget > 0 && DistinctTiers(cfg) && NonNegativeShares(cfg)
    requires i < |cfg.priorityTiers| && ReserveFits(cfg, i)
    ensures KeepsReserve(cfg, chunks, i)
  {
    RoomCoversReserve(cfg, chunks, i);
    OwnReserve(cfg, i);
  }

  /** When the shares sum to at most one, that goes for every tier. */
  lemma SharesAreKept(cfg: HybridConfig, chunks: seq<ScoredChunk>, i: nat)
    requires cfg.tokenBudget > 0 && DistinctTiers(cfg) && NonNegativeShares(cfg)
    requires ShareTotal(cfg.priorityTiers) <= 1.0
    requires i < |cfg.priorityTiers|
    ensures ReserveFits(cfg, i) && KeepsReserve(cfg, chunks, i)
  {
    ReservesFitBudget(cfg, i + 1);
    ReserveIsNeverCut(cfg, chunks, i);
  }

  // ---- and a reserve that does not fit is cut ----

  /** The room that the first n reserves leave when they are used up. */
  function RoomAfter(cfg: HybridConfig, n: nat): nat
    requires n <= |cfg.priorityTiers|
  {
    if ReserveTotal(cfg, n) < cfg.tokenBudget then cfg.tokenBudget - ReserveTotal(cfg, n) else 0
  }

  /** A chunk that uses up tier k's reserve, or the room left to it; tier i's own is as large as its
      reserve. */
  function FillerSize(cfg: HybridConfig, k: nat, i: nat): nat
    requires k < |cfg.priorityTiers|
  {
    var reserve := TierReserve(cfg, cfg.priorityTiers[k]);
    if reserve < 0 then 0 else if k < i && RoomAfter(cfg, k) < reserve then RoomAfter(cfg, k) else reserve
  }

  function Filler(cfg: HybridConfig, k: nat, i: nat): ScoredChunk
    requires k < |cfg.priorityTiers|
  {
    var t := cfg.priorityTiers[k];
    ChunkAt(cfg, t, "of " + t.name, seq(4 * FillerSize(cfg, k, i), _ => 'x'), FillerSize(cfg, k, i))
  }

  /** One such chunk for each of the tiers up to i. */
  function Fillers(cfg: HybridConfig, i: nat): seq<ScoredChunk>
    requires i < |cfg.priorityTiers|
  {
    seq(i + 1, k requires 0 <= k <= i => Filler(cfg, k, i))
  }

  lemma PlaceExists(q: seq<ScoredChunk>, x: ScoredChunk) returns (p: nat)
    requires Sorted(q, HigherFirst)
    ensures p <= |q|
    ensures forall k | 0 <= k < p :: HigherFirst(q[k], x)
    ensures forall k | p <= k < |q| :: HigherFirst(x, q[k])
  {
    p := 0;
    while p < |q| && !HigherFirst(x, q[p])
      invariant p <= |q| && forall k | 0 <= k < p :: HigherFirst(q[k], x)
    {
      p := p + 1;
    }
  }

  lemma InsertSorted(q: seq<ScoredChunk>, x: ScoredChunk) returns (r: seq<ScoredChunk>)
    requires Sorted(q, HigherFirst)
    ensures Sorted(r, HigherFirst) && multiset(r) == multiset(q) + multiset{x}
  {
    var p := PlaceExists(q, x);
    r := q[..p] + [x] + q[p..];
    assert q == q[..p] + q[p..];
  }

  /** Any list can be sorted by score. */
  lemma {:induction false} SortedExists(s: seq<ScoredChunk>) returns (r: seq<ScoredChunk>)
    ensures Sorted(r, HigherFirst) && multiset(r) == multiset(s)
    decreases |s|
  {
    if s == [] {
      r := [];
    } else {
      var n := |s| - 1;
      var q := SortedExists(s[..n]);
      r := InsertSorted(q, s[n]);
      assert s == s[..n] + [s[n]];
    }
  }

  /** In a list with one chunk for each tier a chunk is alone in its tier. */
  lemma {:induction false} AloneInTier(chunks: seq<ScoredChunk>, k: nat)
    requires DistinctBy(chunks, TierOf) && k < |chunks|
    ensures InTier(chunks, chunks[k].priorityTier) == [chunks[k]]
  {
    var n := |chunks| - 1;
    if k < n {
      AloneInTier(chunks[..n], k);
    } else {
      NoneInTier(chunks[..n], chunks[n].priorityTier);
    }
  }

  lemma {:induction false} NoneInTier(chunks: seq<ScoredChunk>, name: string)
    requires forall c | c in chunks :: c.priorityTier != name
    ensures InTier(chunks, name) == []
  {
    if chunks != [] {
      assert chunks[|chunks| - 1] in chunks;
      assert forall c | c in chunks[..|chunks| - 1] :: c in chunks;
      NoneInTier(chunks[..|chunks| - 1], name);
    }
  }

  /** Each tier up to i has its filler and nothing else. */
  ghost predicate OneFillerEach(cfg: HybridConfig, chunks: seq<ScoredChunk>, i: nat)
    requires i < |cfg.priorityTiers|
  {
    forall k | 0 <= k <= i :: InTier(chunks, cfg.priorityTiers[k].name) == [Filler(cfg, k, i)]
  }

  lemma FillersAreAdmissible(cfg: HybridConfig, i: nat) returns (chunks: seq<ScoredChunk>)
    requires DistinctTiers(cfg) && i < |cfg.priorityTiers|
    ensures Admissible(cfg, chunks) && OneFillerEach(cfg, chunks, i)
  {
    var fillers := Fillers(cfg, i);
    chunks := SortedExists(fillers);
    forall j, k | 0 <= j < k <= i ensures KeyOf(fillers[j]) != KeyOf(fillers[k]) {
      assert KeyOf(fillers[j])[3..] == cfg.priorityTiers[j].name && KeyOf(fillers[k])[3..] == cfg.priorityTiers[k].name;
    }
    DistinctPermutation(fillers, chunks, KeyOf);
    DistinctPermutation(fillers, chunks, TierOf);
    forall c | c in chunks ensures BelongsTo(cfg.priorityTiers, c.combinedScore, c.priorityTier) {
      assert c in multiset(chunks);
      var k :| 0 <= k <= i && fillers[k] == c;
    }
    forall k | 0 <= k <= i ensures InTier(chunks, cfg.priorityTiers[k].name) == [Filler(cfg, k, i)] {
      assert fillers[k] in multiset(fillers);
      assert fillers[k] in chunks;
      var p :| 0 <= p < |chunks| && chunks[p] == fillers[k];
      AloneInTier(chunks, p);
    }
  }

  /** A tier whose one chunk fits its reserve and the room takes that chunk. */
  lemma FillerTurn(cfg: HybridConfig, chunks: seq<ScoredChunk>, i: nat, k: nat)
    requires cfg.tokenBudget > 0 && DistinctTiers(cfg) && NonNegativeShares(cfg)
    requires k < i < |cfg.priorityTiers| && OneFillerEach(cfg, chunks, i)
    requires Room(cfg, FirstPass(cfg, chunks, k)) == RoomAfter(cfg, k)
    ensures Room(cfg, FirstPass(cfg, chunks, k + 1)) == RoomAfter(cfg, k + 1)
  {
    var a := FirstPass(cfg, chunks, k);
    OwnReserve(cfg, k);
    ReserveNotNegative(cfg, cfg.priorityTiers[k]);
    SingleGreedy(Filler(cfg, k, i), Min(TierReserve(cfg, cfg.priorityTiers[k]), Room(cfg, a)));
    TurnBounds(cfg, chunks, a, cfg.priorityTiers[k].name);
    ReserveTotalStep(cfg, k);
  }

  lemma FillersLeave(cfg: HybridConfig, chunks: seq<ScoredChunk>, i: nat)
    requires cfg.tokenBudget > 0 && DistinctTiers(cfg) && NonNegativeShares(cfg)
    requires i < |cfg.priorityTiers| && OneFillerEach(cfg, chunks, i)
    ensures Room(cfg, FirstPass(cfg, chunks, i)) == RoomAfter(cfg, i)
  {
    for k := 0 to i
      invariant Room(cfg, FirstPass(cfg, chunks, k)) == RoomAfter(cfg, k)
    {
      FillerTurn(cfg, chunks, i, k);
    }
  }

  /** A reserve that does not fit is cut by an admissible list in which the earlier tiers use up theirs. */
  lemma ReserveIsCut(cfg: HybridConfig, i: nat) returns (chunks: seq<ScoredChunk>)
    requires cfg.tokenBudget > 0 && DistinctTiers(cfg) && NonNegativeShares(cfg)
    requires i < |cfg.priorityTiers| && !ReserveFits(cfg, i)
    ensures Admissible(cfg, chunks) && !KeepsReserve(cfg, chunks, i)
  {
    chunks := FillersAreAdmissible(cfg, i);
    FillersLeave(cfg, chunks, i);
    ReserveTotalStep(cfg, i);
    OwnReserve(cfg, i);
    var reserve := TierReserve(cfg, cfg.priorityTiers[i]);
    ReserveNotNegative(cfg, cfg.priorityTiers[i]);
    SingleGreedy(Filler(cfg, i, i), reserve);
    SingleGreedy(Filler(cfg, i, i), Min(reserve, RoomAfter(cfg, i)));
  }

  /** Exactly when a reserve is kept: tier i's take is that of its own reserve alone, for every admissible
      list, if and only if its reserve fits the budget together with the earlier ones or is empty. */
  lemma ReserveKeptExactly(cfg: HybridConfig, i: nat)
    requires cfg.tokenBudget > 0 && DistinctTiers(cfg) && NonNegativeShares(cfg)
    requires i < |cfg.priorityTiers|
    ensures (forall chunks | Admissible(cfg, chunks) :: KeepsReserve(cfg, chunks, i)) <==> ReserveFits(cfg, i)
  {
    if ReserveFits(cfg, i) {
      forall chunks | Admissible(cfg, chunks) ensures KeepsReserve(cfg, chunks, i) {
        ReserveIsNeverCut(cfg, chunks, i);
      }
    } else {
      var chunks := ReserveIsCut(cfg, i);
    }
  }

  /** No starvation: whatever the other tiers hold, a tier keeps every chunk its reserve selects, and
      every chunk it has when they all fit its reserve. */
  lemma NoStarvation(cfg: HybridConfig, chunks: seq<ScoredChunk>, i: nat, c: ScoredChunk)
    requires cfg.tokenBudget > 0 && DistinctTiers(cfg) && NonNegativeShares(cfg)
    requires i < |cfg.priorityTiers| && ReserveFits(cfg, i)
    requires c in chunks && c.priorityTier == cfg.priorityTiers[i].name
    requires var own, reserve := InTier(chunks, c.priorityTier), TierReserve(cfg, cfg.priorityTiers[i]);
             c in Greedy(own, Tokens, reserve) || Total(own, Tokens) <= reserve
    ensures c in Allot(cfg, chunks).chosen
  {
    var own, reserve := InTier(chunks, c.priorityTier), TierReserve(cfg, cfg.priorityTiers[i]);
    InTierMember(chunks, c.priorityTier, c);
    if Total(own, Tokens) <= reserve {
      GreedyTakesAll(own, Tokens, reserve);
    }
    ReserveIsNeverCut(cfg, chunks, i);
    TurnStays(cfg, chunks, i, c);
    WithinBudget(cfg, chunks);
  }

  /** The shipped default tiers qualify. */
  lemma DefaultTiersReserve(cfg: HybridConfig)
    requires cfg.priorityTiers == [
               PriorityTier("high_relevance", 0.8, 0, 0.5),
               PriorityTier("medium_relevance", 0.6, 0, 0.3),
               PriorityTier("context", 0.0, 0, 0.2)]
    ensures DistinctTiers(cfg) && NonNegativeShares(cfg) && ShareTotal(cfg.priorityTiers) == 1.0
  {
    var tiers := cfg.priorityTiers;
    assert tiers[0].name[0] == 'h' && tiers[1].name[0] == 'm' && tiers[2].name[0] == 'c';
    var one, two := tiers[..1], tiers[..2];
    assert ShareTotal(one) == 0.5 by {
      assert one[..0] == [];
    }
    assert ShareTotal(two) == 0.8 by {
      assert two[..1] == one;
    }
  }
}
