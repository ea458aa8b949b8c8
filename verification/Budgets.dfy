/** Weighted sequences: sums, greedy selection under a budget, longest prefixes, sorting. */
module Budgets {

  /** Go's integer division, which truncates toward zero. */
  function Quotient(a: int, b: int): int
    requires b > 0
  {
    if a >= 0 then a / b else -(-a / b)
  }

  /** The total weight of a sequence. */
  function Total<T>(s: seq<T>, w: T -> nat): nat {
    if s == [] then 0 else Total(s[..|s| - 1], w) + w(s[|s| - 1])
  }

  lemma {:induction false} TotalConcat<T>(a: seq<T>, b: seq<T>, w: T -> nat)
    ensures Total(a + b, w) == Total(a, w) + Total(b, w)
  {
    if b == [] {
      assert a + b == a;
    } else {
      assert (a + b)[..|a + b| - 1] == a + b[..|b| - 1];
      TotalConcat(a, b[..|b| - 1], w);
    }
  }

  lemma TotalSplit<T>(s: seq<T>, n: nat, w: T -> nat)
    requires n <= |s|
    ensures Total(s, w) == Total(s[..n], w) + Total(s[n..], w)
  {
    assert s == s[..n] + s[n..];
    TotalConcat(s[..n], s[n..], w);
  }

  lemma TotalTail<T>(s: seq<T>, w: T -> nat)
    requires s != []
    ensures Total(s, w) == w(s[0]) + Total(s[1..], w)
  {
    TotalSplit(s, 1, w);
    assert s[..1][..0] == [] && s[..1][0] == s[0];
  }

  /** Every single weight is at most the total. */
  lemma TotalCovers<T>(s: seq<T>, i: nat, w: T -> nat)
    requires i < |s|
    ensures w(s[i]) <= Total(s, w)
  {
    TotalSplit(s, i, w);
    TotalTail(s[i..], w);
  }

  /** A longer prefix weighs at least as much. */
  lemma TotalPrefix<T>(s: seq<T>, m: nat, n: nat, w: T -> nat)
    requires m <= n <= |s|
    ensures Total(s[..m], w) <= Total(s[..n], w)
  {
    TotalSplit(s[..n], m, w);
    assert s[..n][..m] == s[..m];
  }

  lemma TotalAppend<T>(s: seq<T>, x: T, w: T -> nat)
    ensures Total(s + [x], w) == Total(s, w) + w(x)
  {
    assert (s + [x])[..|s|] == s;
  }

  /** s without the element at i. */
  function Without<T>(s: seq<T>, i: nat): seq<T>
    requires i < |s|
  {
    s[..i] + s[i + 1..]
  }

  lemma TotalAround<T>(a: seq<T>, x: T, b: seq<T>, w: T -> nat)
    ensures Total(a + [x] + b, w) == Total(a + b, w) + w(x)
  {
    TotalConcat(a + [x], b, w);
    TotalAppend(a, x, w);
    TotalConcat(a, b, w);
  }

  lemma Around<T>(s: seq<T>, i: nat)
    requires i < |s|
    ensures s == s[..i] + [s[i]] + s[i + 1..]
  {
  }

  /** Taking out the element at i takes out exactly its weight. */
  lemma TotalWithout<T>(s: seq<T>, i: nat, w: T -> nat)
    requires i < |s|
    ensures Total(s, w) == w(s[i]) + Total(Without(s, i), w)
  {
    Around(s, i);
    TotalAround(s[..i], s[i], s[i + 1..], w);
  }

  lemma MultisetWithout<T>(s: seq<T>, i: nat)
    requires i < |s|
    ensures multiset(Without(s, i)) == multiset(s) - multiset{s[i]}
    ensures multiset(s) == multiset(Without(s, i)) + multiset{s[i]}
  {
    Around(s, i);
  }

  /** A sub-multiset weighs no more than the whole. */
  lemma {:induction false} TotalSub<T>(a: seq<T>, b: seq<T>, w: T -> nat)
    requires multiset(a) <= multiset(b)
    ensures Total(a, w) <= Total(b, w)
    decreases |a|
  {
    if a != [] {
      assert a[0] in multiset(a);
      assert a[0] in multiset(b);
      var i :| 0 <= i < |b| && b[i] == a[0];
      MultisetWithout(a, 0);
      MultisetWithout(b, i);
      TotalSub(Without(a, 0), Without(b, i), w);
      TotalWithout(a, 0, w);
      TotalWithout(b, i, w);
    }
  }

  /** The total does not depend on the order. */
  lemma TotalPermutation<T>(a: seq<T>, b: seq<T>, w: T -> nat)
    requires multiset(a) == multiset(b)
    ensures Total(a, w) == Total(b, w)
  {
    TotalSub(a, b, w);
    TotalSub(b, a, w);
  }

  /** r is what is left of s when some elements are taken out. */
  ghost predicate Subsequence<T>(r: seq<T>, s: seq<T>) {
    if r == [] then true
    else if s == [] then false
    else
      || (r[|r| - 1] == s[|s| - 1] && Subsequence(r[..|r| - 1], s[..|s| - 1]))
      || Subsequence(r, s[..|s| - 1])
  }

  /** Take, in order, whatever still fits: the scan that skips what is too large. */
  function Greedy<T>(s: seq<T>, w: T -> nat, budget: int): seq<T> {
    if s == [] then []
    else
      var g := Greedy(s[..|s| - 1], w, budget);
      if Total(g, w) + w(s[|s| - 1]) <= budget then g + [s[|s| - 1]] else g
  }

  /** The scan as a loop. */
  method TakeWhatFits<T>(s: seq<T>, w: T -> nat, budget: int) returns (take: seq<T>, used: nat)
    ensures take == Greedy(s, w, budget)
    ensures used == Total(take, w)
  {
    take, used := [], 0;
    ghost var scanned := [];
    for i := 0 to |s|
      invariant scanned == s[..i]
      invariant take == Greedy(scanned, w, budget)
      invariant used == Total(take, w)
    {
      if used + w(s[i]) <= budget {
        take := take + [s[i]];
        used := used + w(s[i]);
      } else {
      }
      scanned := scanned + [s[i]];
    }
    assert scanned == s;
  }

  /** The scan stays in budget, and whatever it passes over is larger than the room it leaves. */
  lemma {:induction false} GreedyBounds<T>(s: seq<T>, w: T -> nat, budget: int)
    ensures Total(Greedy(s, w, budget), w) <= if budget < 0 then 0 else budget
    ensures forall x | x in Greedy(s, w, budget) :: x in s
    ensures forall x | x in s && x !in Greedy(s, w, budget) :: w(x) > budget - Total(Greedy(s, w, budget), w)
  {
    if s != [] {
      var init := s[..|s| - 1];
      GreedyBounds(init, w, budget);
      assert s == init + [s[|s| - 1]];
      assert forall x | x in init :: x in s;
    }
  }

  /** Each element is decided on its own turn, by what fits then, and later ones change nothing: what the
      scan of the first n takes is how the scan of them all begins. */
  lemma {:induction false} GreedyDecides<T>(s: seq<T>, n: nat, w: T -> nat, budget: int)
    requires n < |s|
    ensures var before := Greedy(s[..n], w, budget);
            before + (if Total(before, w) + w(s[n]) <= budget then [s[n]] else []) <= Greedy(s, w, budget)
  {
    if n == |s| - 1 {
      assert s[..n] == s[..|s| - 1];
    } else {
      GreedyDecides(s[..|s| - 1], n, w, budget);
      assert s[..|s| - 1][..n] == s[..n];
    }
  }

  /** Under a negative budget the scan takes nothing. */
  lemma {:induction false} GreedyNothing<T>(s: seq<T>, w: T -> nat, budget: int)
    requires budget < 0
    ensures Greedy(s, w, budget) == []
  {
    if s != [] {
      GreedyNothing(s[..|s| - 1], w, budget);
    }
  }

  /** If everything fits, the scan takes everything. */
  lemma {:induction false} GreedyTakesAll<T>(s: seq<T>, w: T -> nat, budget: int)
    requires Total(s, w) <= budget
    ensures Greedy(s, w, budget) == s
  {
    if s != [] {
      GreedyTakesAll(s[..|s| - 1], w, budget);
      assert s == s[..|s| - 1] + [s[|s| - 1]];
    }
  }

  /** r is the longest prefix of s within the budget (empty when not even that fits). */
  ghost predicate LongestPrefix<T>(r: seq<T>, s: seq<T>, w: T -> nat, budget: int) {
    && r <= s
    && (r == [] || Total(r, w) <= budget)
    && forall m :: |r| < m <= |s| ==> Total(s[..m], w) > budget
  }

  /** Stopping at the first element that overflows gives the longest fitting prefix. */
  lemma StopAtOverflow<T>(s: seq<T>, n: nat, w: T -> nat, budget: int)
    requires n <= |s|
    requires n == 0 || Total(s[..n], w) <= budget
    requires n < |s| ==> Total(s[..n], w) + w(s[n]) > budget
    ensures LongestPrefix(s[..n], s, w, budget)
  {
    forall m | n < m <= |s|
      ensures Total(s[..m], w) > budget
    {
      assert s[..n + 1][..n] == s[..n];
      TotalPrefix(s, n + 1, m, w);
    }
  }

  /** The scan that stops at the first element that does not fit. */
  function PrefixWithin<T>(s: seq<T>, w: T -> nat, budget: int): seq<T> {
    if s == [] then []
    else
      var init := s[..|s| - 1];
      if |PrefixWithin(init, w, budget)| == |init| && Total(s, w) <= budget then s else PrefixWithin(init, w, budget)
  }

  lemma {:induction false} PrefixWithinIsLongest<T>(s: seq<T>, w: T -> nat, budget: int)
    ensures LongestPrefix(PrefixWithin(s, w, budget), s, w, budget)
  {
    if s != [] {
      var init := s[..|s| - 1];
      PrefixWithinIsLongest(init, w, budget);
      var r := PrefixWithin(s, w, budget);
      forall m | |r| < m <= |s| ensures Total(s[..m], w) > budget {
        if m < |s| {
          assert s[..m] == init[..m];
        } else if |r| < |init| {
          assert init[..|init|] == init;
        }
        assert s[..|s|] == s;
      }
    }
  }

  /** There is only one longest prefix. */
  lemma LongestPrefixUnique<T>(r: seq<T>, q: seq<T>, s: seq<T>, w: T -> nat, budget: int)
    requires LongestPrefix(r, s, w, budget) && LongestPrefix(q, s, w, budget)
    ensures r == q
  {
    assert r == s[..|r|] && q == s[..|q|];
  }

  /** The scan that stops, as a loop. */
  method TakeWhileFits<T>(s: seq<T>, w: T -> nat, budget: int) returns (taken: seq<T>, total: nat)
    ensures LongestPrefix(taken, s, w, budget)
    ensures total == Total(taken, w)
  {
    taken, total := [], 0;
    for i := 0 to |s|
      invariant taken == s[..i] && total == Total(taken, w)
      invariant i == 0 || total <= budget
    {
      if total + w(s[i]) > budget {
        StopAtOverflow(s, i, w, budget);
        return;
      }
      assert s[..i + 1][..i] == s[..i];
      taken := taken + [s[i]];
      total := total + w(s[i]);
    }
    StopAtOverflow(s, |s|, w, budget);
  }

  ghost predicate TotalPreorder<T(!new)>(le: (T, T) -> bool) {
    && (forall x, y :: le(x, y) || le(y, x))
    && (forall x, y, z :: le(x, y) && le(y, z) ==> le(x, z))
  }

  ghost predicate Sorted<T>(s: seq<T>, le: (T, T) -> bool) {
    forall i, j | 0 <= i < j < |s| :: le(s[i], s[j])
  }

  /** Where x goes in a sorted sequence. */
  method PlaceFor<T(!new)>(r: seq<T>, x: T, le: (T, T) -> bool) returns (p: nat)
    requires TotalPreorder(le) && Sorted(r, le)
    ensures p <= |r|
    ensures forall i | 0 <= i < p :: le(r[i], x)
    ensures forall i | p <= i < |r| :: le(x, r[i])
  {
    p := 0;
    while p < |r| && !le(x, r[p])
      invariant p <= |r|
      invariant forall i | 0 <= i < p :: le(r[i], x)
    {
      p := p + 1;
    }
  }

  /** An unstable sort: callers may rely on a sorted permutation and on nothing else. */
  method SortBy<T(!new)>(s: seq<T>, le: (T, T) -> bool) returns (r: seq<T>)
    requires TotalPreorder(le)
    ensures Sorted(r, le)
    ensures multiset(r) == multiset(s)
  {
    r := [];
    for n := 0 to |s|
      invariant Sorted(r, le)
      invariant multiset(r) == multiset(s[..n])
    {
      var p := PlaceFor(r, s[n], le);
      assert r == r[..p] + r[p..];
      assert s[..n + 1] == s[..n] + [s[n]];
      r := r[..p] + [s[n]] + r[p..];
    }
    assert s[..|s|] == s;
  }
}
