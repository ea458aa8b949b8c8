/** Concurrent clients of the conversation buffer: reads and writes of the store are separate steps. */
module ShortTermRaces {
  import opened Budgets
  import opened Trimming
  import opened Sessions
  import opened ShortTerm

  /** A message, named by its place in the log of all messages submitted. */
  datatype Note = Note(serial: nat, tokenCount: nat)

  function NoteTokens(n: Note): nat { n.tokenCount }

  /** A message counts with its own token count. */
  lemma TokensAddUp(notes: seq<Note>, n: Note)
    ensures Total([], NoteTokens) == 0 && Total(notes + [n], NoteTokens) == Total(notes, NoteTokens) + n.tokenCount
  {
    TotalAppend(notes, n, NoteTokens);
  }

  datatype Submission = Submission(key: SessionKey, tokenCount: nat)

  /** What a client is doing between its read and its write. */
  datatype Pending =
    | Adding(key: SessionKey, read: Conversation<Note>, note: Note)
    | Trimming(key: SessionKey, read: Conversation<Note>, maxTokens: int)

  datatype State = State(
    store: map<SessionKey, Conversation<Note>>,
    pending: map<nat, Pending>,
    log: seq<Submission>)

  datatype Event =
    | BeginAdd(client: nat, key: SessionKey, tokenCount: nat)
    | BeginTrim(client: nat, key: SessionKey, maxTokens: int)
    | Finish(client: nat)
    | Abort(client: nat)
    | Remove(key: SessionKey)

  function Stored(s: State, key: SessionKey): Conversation<Note> {
    if key in s.store then s.store[key] else Conversation([], 0)
  }

  /** The popping loops, on the running total, which nothing here assumes to be exact. */
  function PopWhileOver(c: Conversation<Note>, limits: Limits): Conversation<Note>
    decreases |c.entries|
  {
    if |c.entries| > limits.maxEntries || (c.totalTokens > limits.maxTokens && |c.entries| > 0)
    then PopWhileOver(PopOldest(c, NoteTokens), limits)
    else c
  }

  function PopWhileHeavy(c: Conversation<Note>, maxTokens: int): Conversation<Note>
    decreases |c.entries|
  {
    if c.totalTokens > maxTokens && |c.entries| > 0
    then PopWhileHeavy(PopOldest(c, NoteTokens), maxTokens)
    else c
  }

  /** The conversation a finishing client writes, computed from what it read. */
  function Written(limits: Limits, p: Pending): Conversation<Note> {
    match p
    case Adding(_, read, note) =>
      PopWhileOver(Conversation(read.entries + [note], read.totalTokens + note.tokenCount), limits)
    case Trimming(_, read, m) => PopWhileHeavy(read, m)
  }

  predicate Enabled(s: State, e: Event) {
    match e
    case BeginAdd(c, _, _) => c !in s.pending
    case BeginTrim(c, key, m) => c !in s.pending && Stored(s, key).totalTokens > m
    case Finish(c) => c in s.pending
    case Abort(c) => c in s.pending
    case Remove(_) => true
  }

  function Next(limits: Limits, s: State, e: Event): State
    requires Enabled(s, e)
  {
    match e
    case BeginAdd(c, key, tokens) =>
      var note := Note(|s.log|, tokens);
      State(s.store, s.pending[c := Adding(key, Stored(s, key), note)], s.log + [Submission(key, tokens)])
    case BeginTrim(c, key, m) =>
      s.(pending := s.pending[c := Trimming(key, Stored(s, key), m)])
    case Finish(c) =>
      var p := s.pending[c];
      s.(store := s.store[p.key := Written(limits, p)], pending := s.pending - {c})
    case Abort(c) => s.(pending := s.pending - {c})
    case Remove(key) => s.(store := s.store - {key})
  }

  /** The state after any interleaving of the clients' steps, clears and expiries. An event that is
      not possible where it stands changes nothing. */
  function After(limits: Limits, events: seq<Event>): State {
    if events == [] then State(map[], map[], [])
    else
      var s, e := After(limits, events[..|events| - 1]), events[|events| - 1];
      if Enabled(s, e) then Next(limits, s, e) else s
  }

  // ---- the invariant ----

  /** Every note was really submitted, to this conversation, and they are in submission order. */
  ghost predicate Genuine(notes: seq<Note>, key: SessionKey, log: seq<Submission>) {
    && (forall i | 0 <= i < |notes| ::
          notes[i].serial < |log| && log[notes[i].serial] == Submission(key, notes[i].tokenCount))
    && (forall i, j | 0 <= i < j < |notes| :: notes[i].serial < notes[j].serial)
  }

  ghost predicate Sound(limits: Limits, c: Conversation<Note>, key: SessionKey, log: seq<Submission>) {
    && Exact(c, NoteTokens)
    && (c.entries == [] || Meets(c.entries, NoteTokens, limits))
    && Genuine(c.entries, key, log)
  }

  ghost predicate SoundPending(limits: Limits, p: Pending, log: seq<Submission>) {
    && Sound(limits, p.read, p.key, log)
    && (p.Adding? ==> Genuine(p.read.entries + [p.note], p.key, log))
  }

  ghost predicate Invariant(limits: Limits, s: State) {
    && (forall k | k in s.store :: Sound(limits, s.store[k], k, s.log))
    && (forall c | c in s.pending :: SoundPending(limits, s.pending[c], s.log))
  }

  lemma {:induction false} PoppedIsKept(c: Conversation<Note>, limits: Limits)
    requires Exact(c, NoteTokens)
    ensures PopWhileOver(c, limits).entries == Keep(c.entries, NoteTokens, limits)
    ensures Exact(PopWhileOver(c, limits), NoteTokens)
    decreases |c.entries|
  {
    if |c.entries| > limits.maxEntries || (c.totalTokens > limits.maxTokens && |c.entries| > 0) {
      PopStaysExact(c, NoteTokens);
      PoppedIsKept(PopOldest(c, NoteTokens), limits);
    }
  }

  lemma {:induction false} HeavyIsKept(c: Conversation<Note>, maxTokens: int)
    requires Exact(c, NoteTokens)
    ensures PopWhileHeavy(c, maxTokens).entries == KeepTokens(c.entries, NoteTokens, maxTokens)
    ensures Exact(PopWhileHeavy(c, maxTokens), NoteTokens)
    decreases |c.entries|
  {
    if c.totalTokens > maxTokens && |c.entries| > 0 {
      PopStaysExact(c, NoteTokens);
      HeavyIsKept(PopOldest(c, NoteTokens), maxTokens);
    }
  }

  lemma GenuineSuffix(r: seq<Note>, notes: seq<Note>, key: SessionKey, log: seq<Submission>)
    requires Genuine(notes, key, log) && SuffixOf(r, notes)
    ensures Genuine(r, key, log)
  {
    var d := |notes| - |r|;
    assert forall i | 0 <= i < |r| :: r[i] == notes[d + i];
  }

  /** What an add writes, when what it read was exact. */
  lemma AddWrites(limits: Limits, read: Conversation<Note>, note: Note, key: SessionKey)
    requires Exact(read, NoteTokens)
    ensures Exact(Written(limits, Adding(key, read, note)), NoteTokens)
    ensures Written(limits, Adding(key, read, note)).entries == Keep(read.entries + [note], NoteTokens, limits)
  {
    TotalAppend(read.entries, note, NoteTokens);
    PoppedIsKept(Conversation(read.entries + [note], read.totalTokens + note.tokenCount), limits);
  }

  lemma AddedIsSound(limits: Limits, read: Conversation<Note>, note: Note, key: SessionKey, log: seq<Submission>)
    requires Sound(limits, read, key, log) && Genuine(read.entries + [note], key, log)
    ensures Sound(limits, Written(limits, Adding(key, read, note)), key, log)
  {
    AddWrites(limits, read, note, key);
    var all := read.entries + [note];
    KeepIsLongest(all, NoteTokens, limits);
    GenuineSuffix(Keep(all, NoteTokens, limits), all, key, log);
  }

  lemma TrimmedIsSound(limits: Limits, read: Conversation<Note>, maxTokens: int, key: SessionKey, log: seq<Submission>)
    requires Sound(limits, read, key, log)
    ensures Sound(limits, Written(limits, Trimming(key, read, maxTokens)), key, log)
  {
    HeavyIsKept(read, maxTokens);
    KeepTokensBounds(read.entries, NoteTokens, limits, maxTokens);
    GenuineSuffix(KeepTokens(read.entries, NoteTokens, maxTokens), read.entries, key, log);
  }

  lemma WrittenIsSound(limits: Limits, p: Pending, log: seq<Submission>)
    requires SoundPending(limits, p, log)
    ensures Sound(limits, Written(limits, p), p.key, log)
  {
    match p
    case Adding(key, read, note) => AddedIsSound(limits, read, note, key, log);
    case Trimming(key, read, m) => TrimmedIsSound(limits, read, m, key, log);
  }

  /** A longer log vouches for as much. */
  lemma SoundnessLasts(limits: Limits, s: State, submission: Submission)
    requires Invariant(limits, s)
    ensures forall k | k in s.store :: Sound(limits, s.store[k], k, s.log + [submission])
    ensures forall c | c in s.pending :: SoundPending(limits, s.pending[c], s.log + [submission])
  {
  }

  lemma BeginAddKeepsInvariant(limits: Limits, s: State, c: nat, key: SessionKey, tokens: nat)
    requires Invariant(limits, s) && Enabled(s, BeginAdd(c, key, tokens))
    ensures Invariant(limits, Next(limits, s, BeginAdd(c, key, tokens)))
  {
    SoundnessLasts(limits, s, Submission(key, tokens));
    var log := s.log + [Submission(key, tokens)];
    assert Sound(limits, Stored(s, key), key, log);
    assert SoundPending(limits, Adding(key, Stored(s, key), Note(|s.log|, tokens)), log);
  }

  lemma NextKeepsInvariant(limits: Limits, s: State, e: Event)
    requires Invariant(limits, s) && Enabled(s, e)
    ensures Invariant(limits, Next(limits, s, e))
  {
    match e
    case BeginAdd(c, key, tokens) => BeginAddKeepsInvariant(limits, s, c, key, tokens);
    case BeginTrim(c, key, m) =>
      assert Sound(limits, Stored(s, key), key, s.log);
    case Finish(c) =>
      WrittenIsSound(limits, s.pending[c], s.log);
    case Abort(c) =>
    case Remove(key) =>
  }

  /** Safety under every interleaving: whatever updates are lost, every stored conversation has an exact
      token total, respects both limits, and holds only messages submitted to it, in the order their
      calls began, hence none twice. */
  lemma {:induction false} EveryScheduleIsSound(limits: Limits, events: seq<Event>)
    ensures Invariant(limits, After(limits, events))
  {
    if events != [] {
      EveryScheduleIsSound(limits, events[..|events| - 1]);
      var s := After(limits, events[..|events| - 1]);
      if Enabled(s, events[|events| - 1]) {
        NextKeepsInvariant(limits, s, events[|events| - 1]);
      }
    }
  }

  // ---- what overlapping calls lose, and when they lose nothing ----

  /** What an event does to the conversation, when a call takes effect as it finishes. */
  function Effect(s: State, e: Event, key: SessionKey): seq<Operation<Note>>
    requires Enabled(s, e)
  {
    match e
    case BeginAdd(_, _, _) => []
    case BeginTrim(_, _, _) => []
    case Finish(c) =>
      var p := s.pending[c];
      if p.key != key then [] else if p.Adding? then [Add(p.note)] else [TrimTo(p.maxTokens)]
    case Abort(_) => []
    case Remove(k) => if k == key then [Clear] else []
  }

  /** The calls on a conversation in the order they finished, with its clears and expiries: the run a
      store without overlaps would have made of the same schedule. */
  function Performed(limits: Limits, events: seq<Event>, key: SessionKey): seq<Operation<Note>> {
    if events == [] then []
    else
      var init, e := events[..|events| - 1], events[|events| - 1];
      var s := After(limits, init);
      Performed(limits, init, key) + if Enabled(s, e) then Effect(s, e, key) else []
  }

  /** The stored entries are what the sequential run leaves. */
  ghost predicate AsPerformed(limits: Limits, events: seq<Event>, key: SessionKey) {
    Stored(After(limits, events), key).entries == Run(limits, NoteTokens, Performed(limits, events, key))
  }

  /** Whoever finishes finds the conversation as it read it. */
  predicate Untouched(s: State, e: Event) {
    e.Finish? && Enabled(s, e) ==> Stored(s, s.pending[e.client].key) == s.pending[e.client].read
  }

  predicate Undisturbed(limits: Limits, events: seq<Event>) {
    events == []
    || (Undisturbed(limits, events[..|events| - 1])
        && Untouched(After(limits, events[..|events| - 1]), events[|events| - 1]))
  }

  /** The finishing call, had it read only now. */
  function Reread(s: State, p: Pending): Pending {
    p.(read := Stored(s, p.key))
  }

  /** Whoever finishes writes what it would have written had it read only now. */
  predicate Timely(limits: Limits, s: State, e: Event) {
    e.Finish? && Enabled(s, e) ==>
      Written(limits, s.pending[e.client]).entries == Written(limits, Reread(s, s.pending[e.client])).entries
  }

  predicate TimelyThroughout(limits: Limits, events: seq<Event>) {
    events == []
    || (TimelyThroughout(limits, events[..|events| - 1])
        && Timely(limits, After(limits, events[..|events| - 1]), events[|events| - 1]))
  }

  /** What a call that reads and writes at once does is one step of the run. */
  lemma RereadSteps(limits: Limits, s: State, c: nat)
    requires Invariant(limits, s) && Enabled(s, Finish(c))
    ensures Written(limits, Reread(s, s.pending[c])).entries
         == Step(limits, NoteTokens, Stored(s, s.pending[c].key).entries, Effect(s, Finish(c), s.pending[c].key)[0])
  {
    var p := s.pending[c];
    assert Sound(limits, Stored(s, p.key), p.key, s.log);
    match p
    case Adding(key, _, note) => AddWrites(limits, Stored(s, key), note, key);
    case Trimming(key, _, m) => HeavyIsKept(Stored(s, key), m);
  }

  /** A client that finishes when the conversation is as it read it loses nothing: the result is the
      longest suffix of what is stored plus its message. */
  lemma UndisturbedAddIsAtomic(limits: Limits, events: seq<Event>, c: nat, p: Pending)
    requires Enabled(After(limits, events), Finish(c))
    requires p == After(limits, events).pending[c] && p.Adding?
    requires Stored(After(limits, events), p.key) == p.read
    ensures Stored(Next(limits, After(limits, events), Finish(c)), p.key).entries
         == Keep(Stored(After(limits, events), p.key).entries + [p.note], NoteTokens, limits)
  {
    EveryScheduleIsSound(limits, events);
    assert SoundPending(limits, p, After(limits, events).log);
    AddWrites(limits, p.read, p.note, p.key);
  }

  lemma UnaffectedStays(limits: Limits, s: State, e: Event, key: SessionKey)
    requires Enabled(s, e) && Effect(s, e, key) == []
    ensures Stored(Next(limits, s, e), key) == Stored(s, key)
  {
  }

  lemma AffectedSteps(limits: Limits, s: State, e: Event, key: SessionKey)
    requires Invariant(limits, s) && Enabled(s, e) && Timely(limits, s, e) && Effect(s, e, key) != []
    ensures Stored(Next(limits, s, e), key).entries
         == Step(limits, NoteTokens, Stored(s, key).entries, Effect(s, e, key)[0])
  {
    if e.Finish? {
      RereadSteps(limits, s, e.client);
    }
  }

  /** One event, if timely, does to the store what its effect does to the run. */
  lemma TimelyStep(limits: Limits, s: State, e: Event, key: SessionKey, ops: seq<Operation<Note>>)
    requires Invariant(limits, s) && Enabled(s, e) && Timely(limits, s, e)
    requires Stored(s, key).entries == Run(limits, NoteTokens, ops)
    ensures Stored(Next(limits, s, e), key).entries == Run(limits, NoteTokens, ops + Effect(s, e, key))
  {
    var effect := Effect(s, e, key);
    if effect == [] {
      UnaffectedStays(limits, s, e, key);
      assert ops + effect == ops;
    } else {
      AffectedSteps(limits, s, e, key);
      assert effect == [effect[0]];
    }
  }

  lemma {:induction false} TimelyIsSequential(limits: Limits, events: seq<Event>, key: SessionKey)
    requires TimelyThroughout(limits, events)
    ensures AsPerformed(limits, events, key)
  {
    if events != [] {
      var init, e := events[..|events| - 1], events[|events| - 1];
      TimelyIsSequential(limits, init, key);
      EveryScheduleIsSound(limits, init);
      var s := After(limits, init);
      if Enabled(s, e) {
        TimelyStep(limits, s, e, key, Performed(limits, init, key));
      } else {
        assert Performed(limits, events, key) == Performed(limits, init, key);
      }
    }
  }

  lemma {:induction false} UndisturbedIsTimely(limits: Limits, events: seq<Event>)
    requires Undisturbed(limits, events)
    ensures TimelyThroughout(limits, events)
  {
    if events != [] {
      UndisturbedIsTimely(limits, events[..|events| - 1]);
    }
  }

  /** A schedule in which every finishing call finds the conversation as it read it is as good as
      sequential: each conversation is what running the calls one after the other leaves. */
  lemma UndisturbedIsSequential(limits: Limits, events: seq<Event>, key: SessionKey)
    requires Undisturbed(limits, events)
    ensures AsPerformed(limits, events, key)
  {
    UndisturbedIsTimely(limits, events);
    TimelyIsSequential(limits, events, key);
  }

  /** Such a schedule keeps, without explicit trims since the last clear, the longest suffix of all the
      messages added since. */
  lemma UndisturbedKeepsLongestSuffix(limits: Limits, events: seq<Event>, key: SessionKey)
    requires Undisturbed(limits, events) && NeverTrimmed(Performed(limits, events, key))
    ensures Stored(After(limits, events), key).entries
         == Keep(History(Performed(limits, events, key)), NoteTokens, limits)
  {
    UndisturbedIsSequential(limits, events, key);
    RunIsLongestSuffix(limits, NoteTokens, Performed(limits, events, key));
  }

  // ---- exactly what is needed ----

  /** After every event each conversation is what the sequential run leaves. */
  ghost predicate SequentialThroughout(limits: Limits, events: seq<Event>) {
    && (events == [] || SequentialThroughout(limits, events[..|events| - 1]))
    && forall key :: AsPerformed(limits, events, key)
  }

  lemma SequentialMeansTimely(limits: Limits, init: seq<Event>, e: Event)
    requires SequentialThroughout(limits, init) && SequentialThroughout(limits, init + [e])
    ensures Timely(limits, After(limits, init), e)
  {
    var s, events := After(limits, init), init + [e];
    assert events[..|init|] == init;
    if e.Finish? && Enabled(s, e) {
      var key := s.pending[e.client].key;
      EveryScheduleIsSound(limits, init);
      assert AsPerformed(limits, init, key) && AsPerformed(limits, events, key);
      RereadSteps(limits, s, e.client);
    }
  }

  /** Exactly when a schedule is as good as sequential: each conversation is after every event what the
      finished calls, one after the other, leave, if and only if every finishing call writes what it would
      have written had it read only then. */
  lemma {:induction false} SequentialExactly(limits: Limits, events: seq<Event>)
    ensures SequentialThroughout(limits, events) <==> TimelyThroughout(limits, events)
  {
    if events != [] {
      var init, e := events[..|events| - 1], events[|events| - 1];
      SequentialExactly(limits, init);
      assert events == init + [e];
      if SequentialThroughout(limits, events) {
        SequentialMeansTimely(limits, init, e);
      }
    }
    if TimelyThroughout(limits, events) {
      forall key ensures AsPerformed(limits, events, key) {
        TimelyIsSequential(limits, events, key);
      }
    }
  }

  // ---- a lock for each conversation is enough ----

  ghost predicate Busy(s: State, key: SessionKey) {
    exists c :: c in s.pending && s.pending[c].key == key
  }

  /** No call begins, and nothing is cleared or expires, while another call is under way there. */
  ghost predicate TakesTurn(s: State, e: Event) {
    match e
    case BeginAdd(_, key, _) => !Busy(s, key)
    case BeginTrim(_, key, _) => !Busy(s, key)
    case Finish(_) => true
    case Abort(_) => true
    case Remove(key) => !Busy(s, key)
  }

  ghost predicate TurnsTaken(limits: Limits, events: seq<Event>) {
    events == []
    || (TurnsTaken(limits, events[..|events| - 1])
        && TakesTurn(After(limits, events[..|events| - 1]), events[|events| - 1]))
  }

  /** Every call under way read what is stored, and no two are on the same conversation. */
  ghost predicate Alone(s: State) {
    && (forall c | c in s.pending :: Stored(s, s.pending[c].key) == s.pending[c].read)
    && (forall c, d | c in s.pending && d in s.pending && s.pending[c].key == s.pending[d].key :: c == d)
  }

  lemma TurnKeepsAlone(limits: Limits, s: State, e: Event)
    requires Alone(s) && Enabled(s, e) && TakesTurn(s, e)
    ensures Alone(Next(limits, s, e))
  {
  }

  lemma {:induction false} TurnsAreUndisturbed(limits: Limits, events: seq<Event>)
    requires TurnsTaken(limits, events)
    ensures Undisturbed(limits, events) && Alone(After(limits, events))
  {
    if events != [] {
      var init, e := events[..|events| - 1], events[|events| - 1];
      TurnsAreUndisturbed(limits, init);
      if Enabled(After(limits, init), e) {
        TurnKeepsAlone(limits, After(limits, init), e);
      }
    }
  }

  // ---- when nothing is trimmed ----

  /** No explicit trim, and no add that has to make room, in what it read or in what is stored. */
  predicate Roomy(limits: Limits, s: State, e: Event) {
    && !e.BeginTrim?
    && (e.Finish? && Enabled(s, e) && s.pending[e.client].Adding? ==>
          var p := s.pending[e.client];
          && Meets(p.read.entries + [p.note], NoteTokens, limits)
          && Meets(Stored(s, p.key).entries + [p.note], NoteTokens, limits))
  }

  predicate RoomyThroughout(limits: Limits, events: seq<Event>) {
    events == []
    || (RoomyThroughout(limits, events[..|events| - 1])
        && Roomy(limits, After(limits, events[..|events| - 1]), events[|events| - 1]))
  }

  /** With room for the message, an add leaves what is stored plus its message exactly when what is
      stored is what it read. */
  lemma AddLosesExactly(limits: Limits, s: State, c: nat)
    requires Invariant(limits, s) && Enabled(s, Finish(c)) && Roomy(limits, s, Finish(c))
    requires s.pending[c].Adding?
    ensures var p := s.pending[c];
            Stored(Next(limits, s, Finish(c)), p.key).entries
              == Step(limits, NoteTokens, Stored(s, p.key).entries, Add(p.note))
            <==> Stored(s, p.key) == p.read
  {
    var p := s.pending[c];
    assert SoundPending(limits, p, s.log);
    AddWrites(limits, p.read, p.note, p.key);
    var stored := Stored(s, p.key);
    assert Exact(stored, NoteTokens);
    assert (stored.entries + [p.note])[..|stored.entries|] == stored.entries;
    assert (p.read.entries + [p.note])[..|p.read.entries|] == p.read.entries;
  }

  lemma {:induction false} OnlyAdds(limits: Limits, events: seq<Event>)
    requires RoomyThroughout(limits, events)
    ensures forall c | c in After(limits, events).pending :: After(limits, events).pending[c].Adding?
  {
    if events != [] {
      OnlyAdds(limits, events[..|events| - 1]);
    }
  }

  lemma RoomyTimelyIsUntouched(limits: Limits, s: State, e: Event)
    requires Invariant(limits, s) && Roomy(limits, s, e) && (forall c | c in s.pending :: s.pending[c].Adding?)
    requires Timely(limits, s, e)
    ensures Untouched(s, e)
  {
    if e.Finish? && Enabled(s, e) {
      RereadSteps(limits, s, e.client);
      AddLosesExactly(limits, s, e.client);
    }
  }

  /** Exactly when nothing is lost: among schedules that need no trimming, those in which each
      conversation is at all times what the finished calls, one after the other, leave are those in which
      no call finishes on a conversation that has changed since it read it. */
  lemma {:induction false} NothingLostExactly(limits: Limits, events: seq<Event>)
    requires RoomyThroughout(limits, events)
    ensures SequentialThroughout(limits, events) <==> Undisturbed(limits, events)
  {
    SequentialExactly(limits, events);
    if events != [] {
      var init := events[..|events| - 1];
      NothingLostExactly(limits, init);
      SequentialExactly(limits, init);
      if TimelyThroughout(limits, events) {
        EveryScheduleIsSound(limits, init);
        OnlyAdds(limits, init);
        RoomyTimelyIsUntouched(limits, After(limits, init), events[|events| - 1]);
      }
    }
    if Undisturbed(limits, events) {
      UndisturbedIsTimely(limits, events);
    }
  }

  /** Two overlapping calls: both finish, nothing is trimmed, cleared or expired, and one message is
      gone. So without a condition on the schedule a message may be lost. */
  lemma OverlappingAddsLoseOne(limits: Limits, key: SessionKey)
    requires limits.maxEntries >= 2 && limits.maxTokens >= 2
    ensures var events := [BeginAdd(0, key, 1), BeginAdd(1, key, 1), Finish(0), Finish(1)];
            Stored(After(limits, events), key).entries == [Note(1, 1)]
  {
    var e1, e2 := [BeginAdd(0, key, 1)], [BeginAdd(0, key, 1), BeginAdd(1, key, 1)];
    var e3 := e2 + [Finish(0)];
    var e4 := e3 + [Finish(1)];
    assert e1[..0] == [] && e2[..1] == e1 && e3[..2] == e2 && e4[..3] == e3;
    assert e4 == [BeginAdd(0, key, 1), BeginAdd(1, key, 1), Finish(0), Finish(1)];
    var empty: Conversation<Note> := Conversation([], 0);
    assert After(limits, e1).pending == map[0 := Adding(key, empty, Note(0, 1))];
    assert After(limits, e2).pending[1] == Adding(key, empty, Note(1, 1));
  }
}
