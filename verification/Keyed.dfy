/** Two lists merged by key: which element a key ends up with. */
module Keyed {
  import opened Budgets

  /** The keys that occur in s. */
  function KeysOf<T>(s: seq<T>, key: T -> string): set<string> {
    if s == [] then {} else KeysOf(s[..|s| - 1], key) + {key(s[|s| - 1])}
  }

  lemma {:induction false} KeysOfMember<T>(s: seq<T>, key: T -> string, k: string)
    ensures k in KeysOf(s, key) <==> exists i :: 0 <= i < |s| && key(s[i]) == k
  {
    if s != [] {
      var init := s[..|s| - 1];
      KeysOfMember(init, key, k);
      if i :| 0 <= i < |s| && key(s[i]) == k {
        assert i < |init| ==> key(init[i]) == k;
      }
      if k in KeysOf(init, key) {
        var i :| 0 <= i < |init| && key(init[i]) == k;
        assert key(s[i]) == k;
      } else if k in KeysOf(s, key) {
        assert key(s[|s| - 1]) == k;
      }
    }
  }

  /** The last element of s with key k. */
  function LastWith<T>(s: seq<T>, key: T -> string, k: string): (x: T)
    requires k in KeysOf(s, key)
    ensures key(x) == k && x in s
  {
    if key(s[|s| - 1]) == k then s[|s| - 1] else LastWith(s[..|s| - 1], key, k)
  }

  /** The first element of s with key k. */
  function FirstWith<T>(s: seq<T>, key: T -> string, k: string): (x: T)
    requires k in KeysOf(s, key)
    ensures key(x) == k && x in s
  {
    if k in KeysOf(s[..|s| - 1], key) then FirstWith(s[..|s| - 1], key, k) else s[|s| - 1]
  }

  /** Place i holds the last element with key k. */
  ghost predicate LastAt<T>(s: seq<T>, key: T -> string, k: string, i: nat) {
    i < |s| && key(s[i]) == k && forall j | i < j < |s| :: key(s[j]) != k
  }

  ghost predicate FirstAt<T>(s: seq<T>, key: T -> string, k: string, i: nat) {
    i < |s| && key(s[i]) == k && forall j | 0 <= j < i :: key(s[j]) != k
  }

  /** LastWith means what it says. */
  lemma {:induction false} LastWithIsLast<T>(s: seq<T>, key: T -> string, k: string, i: nat)
    requires LastAt(s, key, k, i)
    ensures k in KeysOf(s, key) && LastWith(s, key, k) == s[i]
  {
    var n := |s| - 1;
    if i < n {
      LastWithIsLast(s[..n], key, k, i);
    }
  }

  /** FirstWith means what it says. */
  lemma {:induction false} FirstWithIsFirst<T>(s: seq<T>, key: T -> string, k: string, i: nat)
    requires FirstAt(s, key, k, i)
    ensures k in KeysOf(s, key) && FirstWith(s, key, k) == s[i]
  {
    var n := |s| - 1;
    if i < n {
      FirstWithIsFirst(s[..n], key, k, i);
    } else {
      KeysOfMember(s[..n], key, k);
    }
  }

  /** The elements of s with key k, in order. */
  function AllWith<T>(s: seq<T>, key: T -> string, k: string): seq<T> {
    if s == [] then []
    else AllWith(s[..|s| - 1], key, k) + if key(s[|s| - 1]) == k then [s[|s| - 1]] else []
  }

  /** AllWith means what it says: some of s, in order, as many as have the key, and all with it. */
  lemma {:induction false} AllWithMeans<T>(s: seq<T>, key: T -> string, k: string)
    ensures Subsequence(AllWith(s, key, k), s)
    ensures |AllWith(s, key, k)| == Occurrences(s, key, k)
    ensures forall x | x in AllWith(s, key, k) :: key(x) == k
  {
    if s != [] {
      var init, r := s[..|s| - 1], AllWith(s, key, k);
      AllWithMeans(init, key, k);
      if key(s[|s| - 1]) == k {
        assert r[..|r| - 1] == AllWith(init, key, k);
      } else {
        assert r == AllWith(init, key, k);
      }
    }
  }

  /** Merging by key: an element of the primary list wins, and there the last one; otherwise
      the secondary list's first element with that key is kept. */
  function Survivor<T>(primary: seq<T>, secondary: seq<T>, key: T -> string, k: string): (x: T)
    requires k in KeysOf(primary, key) + KeysOf(secondary, key)
    ensures key(x) == k && (x in primary || x in secondary)
  {
    if k in KeysOf(primary, key) then LastWith(primary, key, k) else FirstWith(secondary, key, k)
  }

  ghost predicate DistinctBy<T>(s: seq<T>, key: T -> string) {
    forall i, j | 0 <= i < j < |s| :: key(s[i]) != key(s[j])
  }

  function HasKey<T>(key: T -> string, k: string): T -> nat {
    x => if key(x) == k then 1 else 0
  }

  /** How many elements of s have key k. */
  function Occurrences<T>(s: seq<T>, key: T -> string, k: string): nat {
    Total(s, HasKey(key, k))
  }

  /** Keys are distinct exactly when none occurs twice; so a permutation keeps them distinct. */
  lemma DistinctByCount<T>(s: seq<T>, key: T -> string)
    ensures DistinctBy(s, key) <==> forall k :: Occurrences(s, key, k) <= 1
  {
    if DistinctBy(s, key) {
      forall k ensures Occurrences(s, key, k) <= 1 {
        DistinctCount(s, key, k);
      }
    } else {
      var i, j :| 0 <= i < j < |s| && key(s[i]) == key(s[j]);
      var w := HasKey(key, key(s[i]));
      TotalSplit(s, j, w);
      TotalCovers(s[..j], i, w);
      TotalCovers(s[j..], 0, w);
      assert Occurrences(s, key, key(s[i])) >= 2;
    }
  }

  lemma {:induction false} DistinctCount<T>(s: seq<T>, key: T -> string, k: string)
    requires DistinctBy(s, key)
    ensures Occurrences(s, key, k) == if k in KeysOf(s, key) then 1 else 0
  {
    if s != [] {
      var init := s[..|s| - 1];
      DistinctCount(init, key, k);
      KeysOfMember(init, key, k);
    }
  }

  lemma DistinctPermutation<T>(a: seq<T>, b: seq<T>, key: T -> string)
    requires multiset(a) == multiset(b) && DistinctBy(a, key)
    ensures DistinctBy(b, key)
  {
    DistinctByCount(a, key);
    DistinctByCount(b, key);
    forall k ensures Occurrences(b, key, k) <= 1 {
      assert Occurrences(a, key, k) <= 1;
      TotalPermutation(a, b, HasKey(key, k));
    }
  }

  lemma {:induction false} DistinctSize<T>(s: seq<T>, key: T -> string)
    requires DistinctBy(s, key)
    ensures |KeysOf(s, key)| == |s|
  {
    if s != [] {
      DistinctSize(s[..|s| - 1], key);
      KeysOfMember(s[..|s| - 1], key, key(s[|s| - 1]));
    }
  }

  /** A duplicate-free sequence drawn from another is a sub-multiset of it. */
  lemma DistinctDrawn<T(!new)>(r: seq<T>, s: seq<T>, key: T -> string)
    requires DistinctBy(r, key)
    requires forall x | x in r :: x in s
    ensures multiset(r) <= multiset(s)
  {
    forall x | x in multiset(r)
      ensures multiset(r)[x] <= multiset(s)[x]
    {
      DistinctMultiplicity(r, key, x);
      assert x in s;
      assert x in multiset(s);
    }
  }

  lemma {:induction false} DistinctMultiplicity<T>(r: seq<T>, key: T -> string, x: T)
    requires DistinctBy(r, key)
    ensures multiset(r)[x] <= 1
  {
    if r != [] {
      var init := r[..|r| - 1];
      DistinctMultiplicity(init, key, x);
      assert r == init + [r[|r| - 1]];
      assert r[|r| - 1] !in init;
    }
  }

  lemma KeysPermutation<T>(a: seq<T>, b: seq<T>, key: T -> string)
    requires multiset(a) == multiset(b)
    ensures KeysOf(a, key) == KeysOf(b, key)
  {
    forall k ensures k in KeysOf(a, key) <==> k in KeysOf(b, key) {
      KeysOfMember(a, key, k);
      KeysOfMember(b, key, k);
      assert forall i | 0 <= i < |a| :: a[i] in multiset(b);
      assert forall i | 0 <= i < |b| :: b[i] in multiset(a);
      if i :| 0 <= i < |a| && key(a[i]) == k {
        var j :| 0 <= j < |b| && b[j] == a[i];
      }
      if i :| 0 <= i < |b| && key(b[i]) == k {
        var j :| 0 <= j < |a| && a[j] == b[i];
      }
    }
  }

  /** Ranging over a map whose values carry their own keys, in whatever order. */
  method ListEntries<T>(m: map<string, T>, key: T -> string) returns (listed: seq<T>)
    requires forall k | k in m :: key(m[k]) == k
    ensures DistinctBy(listed, key)
    ensures KeysOf(listed, key) == m.Keys
    ensures forall i | 0 <= i < |listed| :: key(listed[i]) in m && m[key(listed[i])] == listed[i]
  {
    listed := [];
    var left := m.Keys;
    while left != {}
      invariant left <= m.Keys
      invariant DistinctBy(listed, key)
      invariant KeysOf(listed, key) == m.Keys - left
      invariant forall i | 0 <= i < |listed| :: key(listed[i]) in m && m[key(listed[i])] == listed[i]
      decreases left
    {
      var k :| k in left;
      KeysOfMember(listed, key, k);
      assert (listed + [m[k]])[..|listed|] == listed;
      listed := listed + [m[k]];
      left := left - {k};
    }
  }
}
