/** Trimming a conversation from its oldest end, and what incremental trimming amounts to. */
module Trimming {
  import opened Budgets

  /** maxEntries and maxTokens bound what is kept. */
  datatype Limits = Limits(maxEntries: nat, maxTokens: int)

  /** A stored conversation: its entries, oldest first, and the running token total. */
  datatype Conversation<T> = Conversation(entries: seq<T>, totalTokens: int)

  /** The total is that of the entries. */
  ghost predicate Exact<T>(c: Conversation<T>, w: T -> nat) {
    c.totalTokens == Total(c.entries, w)
  }

  predicate Meets<T>(h: seq<T>, w: T -> nat, limits: Limits) {
    |h| <= limits.maxEntries && Total(h, w) <= limits.maxTokens
  }

  /** The longest suffix of h meeting both limits; nothing, when not even the empty one does. */
  function Keep<T>(h: seq<T>, w: T -> nat, limits: Limits): seq<T> {
    if h == [] || Meets(h, w, limits) then h else Keep(h[1..], w, limits)
  }

  ghost predicate SuffixOf<T>(r: seq<T>, h: seq<T>) {
    |r| <= |h| && r == h[|h| - |r|..]
  }

  /** Keep means what it says: a suffix, within the limits, and no longer suffix is. */
  lemma {:induction false} KeepIsLongest<T>(h: seq<T>, w: T -> nat, limits: Limits)
    ensures SuffixOf(Keep(h, w, limits), h)
    ensures Keep(h, w, limits) == [] || Meets(Keep(h, w, limits), w, limits)
    ensures forall i :: 0 <= i < |h| - |Keep(h, w, limits)| ==> !Meets(h[i..], w, limits)
    decreases |h|
  {
    if h != [] && !Meets(h, w, limits) {
      KeepIsLongest(h[1..], w, limits);
      forall i | 0 <= i < |h| - |Keep(h, w, limits)|
        ensures !Meets(h[i..], w, limits)
      {
        if i > 0 {
          assert h[1..][i - 1..] == h[i..];
        }
      }
    }
  }

  /** Adding an entry cannot bring a conversation back within its limits. */
  lemma MeetsTail<T>(h: seq<T>, e: T, w: T -> nat, limits: Limits)
    requires Meets(h + [e], w, limits)
    ensures Meets(h, w, limits)
  {
    TotalConcat(h, [e], w);
  }

  /** Incremental trimming forgets nothing that matters: trimming after every message gives the same
      as trimming the whole history once. */
  lemma {:induction false} KeepIncremental<T>(h: seq<T>, e: T, w: T -> nat, limits: Limits)
    ensures Keep(Keep(h, w, limits) + [e], w, limits) == Keep(h + [e], w, limits)
    decreases |h|
  {
    if h != [] && !Meets(h, w, limits) {
      KeepIncremental(h[1..], e, w, limits);
      if Meets(h + [e], w, limits) {
        MeetsTail(h, e, w, limits);
      }
      assert (h + [e])[1..] == h[1..] + [e];
    }
  }

  /** Trimming by tokens alone. */
  function KeepTokens<T>(h: seq<T>, w: T -> nat, maxTokens: int): seq<T> {
    if h == [] || Total(h, w) <= maxTokens then h else KeepTokens(h[1..], w, maxTokens)
  }

  /** Trimming to limits and then to a token budget is trimming to the tighter of the two. */
  lemma {:induction false} KeepThenTokens<T>(h: seq<T>, w: T -> nat, limits: Limits, maxTokens: int)
    ensures KeepTokens(Keep(h, w, limits), w, maxTokens)
         == Keep(h, w, limits.(maxTokens := if maxTokens < limits.maxTokens then maxTokens else limits.maxTokens))
    decreases |h|
  {
    var tighter := limits.(maxTokens := if maxTokens < limits.maxTokens then maxTokens else limits.maxTokens);
    if h == [] {
    } else if Meets(h, w, limits) {
      if Total(h, w) > maxTokens {
        TotalTail(h, w);
        assert Meets(h[1..], w, limits);
        KeepThenTokens(h[1..], w, limits, maxTokens);
      }
    } else {
      KeepThenTokens(h[1..], w, limits, maxTokens);
    }
  }

  lemma {:induction false} KeepTokensBounds<T>(h: seq<T>, w: T -> nat, limits: Limits, maxTokens: int)
    ensures SuffixOf(KeepTokens(h, w, maxTokens), h)
    ensures KeepTokens(h, w, maxTokens) == [] || Total(KeepTokens(h, w, maxTokens), w) <= maxTokens
    ensures Meets(h, w, limits) ==> Meets(KeepTokens(h, w, maxTokens), w, limits)
    decreases |h|
  {
    if h != [] && Total(h, w) > maxTokens {
      TotalTail(h, w);
      KeepTokensBounds(h[1..], w, limits, maxTokens);
    }
  }

  // ---- the popping loops ----

  /** Popping the oldest entry and subtracting its tokens. */
  function PopOldest<T>(c: Conversation<T>, w: T -> nat): Conversation<T>
    requires c.entries != []
  {
    Conversation(c.entries[1..], c.totalTokens - w(c.entries[0]))
  }

  lemma PopStaysExact<T>(c: Conversation<T>, w: T -> nat)
    requires c.entries != [] && Exact(c, w)
    ensures Exact(PopOldest(c, w), w)
  {
    TotalTail(c.entries, w);
  }

  /** Trimming by count, then by the running total: exactly Keep, with an exact total. */
  method TrimMemory<T>(c: Conversation<T>, w: T -> nat, limits: Limits) returns (r: Conversation<T>)
    requires Exact(c, w)
    ensures r.entries == Keep(c.entries, w, limits)
    ensures Exact(r, w)
  {
    r := c;
    while |r.entries| > limits.maxEntries
      invariant Exact(r, w) && Keep(r.entries, w, limits) == Keep(c.entries, w, limits)
      decreases |r.entries|
    {
      PopStaysExact(r, w);
      r := PopOldest(r, w);
    }
    while r.totalTokens > limits.maxTokens && |r.entries| > 0
      invariant |r.entries| <= limits.maxEntries
      invariant Exact(r, w) && Keep(r.entries, w, limits) == Keep(c.entries, w, limits)
      decreases |r.entries|
    {
      PopStaysExact(r, w);
      r := PopOldest(r, w);
    }
  }

  method TrimTokens<T>(c: Conversation<T>, w: T -> nat, maxTokens: int) returns (r: Conversation<T>)
    requires Exact(c, w)
    ensures r.entries == KeepTokens(c.entries, w, maxTokens)
    ensures Exact(r, w)
  {
    r := c;
    while r.totalTokens > maxTokens && |r.entries| > 0
      invariant Exact(r, w) && KeepTokens(r.entries, w, maxTokens) == KeepTokens(c.entries, w, maxTokens)
      decreases |r.entries|
    {
      PopStaysExact(r, w);
      r := PopOldest(r, w);
    }
  }
}
