/** Word-overlap similarity of queries. */
module Similarity {

  predicate IsDelimiter(c: char) {
    c == ' ' || c == '\t' || c == '\n' || c == '.' || c == ','
  }

  // ---- splitting into words ----

  /** The words completed so far and the one being read. */
  datatype Scan = Scan(words: seq<string>, current: string)

  function Flushed(p: Scan): seq<string> {
    if p.current != "" then p.words + [p.current] else p.words
  }

  function ScanOf(s: string): Scan {
    if s == "" then Scan([], "")
    else
      var p, c := ScanOf(s[..|s| - 1]), s[|s| - 1];
      if IsDelimiter(c) then Scan(Flushed(p), "") else Scan(p.words, p.current + [c])
  }

  function Words(s: string): seq<string> {
    Flushed(ScanOf(s))
  }

  method SplitWords(s: string) returns (words: seq<string>)
    ensures words == Words(s)
  {
    words := [];
    var current := "";
    for i := 0 to |s|
      invariant Scan(words, current) == ScanOf(s[..i])
    {
      assert s[..i + 1][..i] == s[..i];
      if IsDelimiter(s[i]) {
        if current != "" {
          words := words + [current];
          current := "";
        }
      } else {
        current := current + [s[i]];
      }
    }
    assert s[..|s|] == s;
    if current != "" {
      words := words + [current];
    }
  }

  predicate IsWord(w: string) {
    w != "" && forall i | 0 <= i < |w| :: !IsDelimiter(w[i])
  }

  /** Splitting distributes over a delimiter. */
  lemma SplitAtDelimiter(a: string, d: char, b: string)
    requires IsDelimiter(d)
    ensures Words(a + [d] + b) == Words(a) + Words(b)
  {
    ScanAfterDelimiter(a, d, b);
    assert Words(a) + (ScanOf(b).words + [ScanOf(b).current]) == Words(a) + ScanOf(b).words + [ScanOf(b).current];
  }

  lemma {:induction false} ScanAfterDelimiter(a: string, d: char, b: string)
    requires IsDelimiter(d)
    ensures ScanOf(a + [d] + b) == Scan(Words(a) + ScanOf(b).words, ScanOf(b).current)
  {
    var s := a + [d] + b;
    if b == "" {
      assert s[..|s| - 1] == a;
      assert Words(a) + [] == Words(a);
    } else {
      var init := b[..|b| - 1];
      assert s[..|s| - 1] == a + [d] + init;
      ScanAfterDelimiter(a, d, init);
      var p := ScanOf(init);
      assert Words(a) + (p.words + [p.current]) == Words(a) + p.words + [p.current];
    }
  }

  /** A word splits to itself, and every piece is a word. */
  lemma {:induction false} WordsAreWords(s: string)
    ensures forall w | w in ScanOf(s).words :: IsWord(w)
    ensures ScanOf(s).current == "" || IsWord(ScanOf(s).current)
    ensures IsWord(s) ==> Words(s) == [s]
  {
    if s != "" {
      var init := s[..|s| - 1];
      WordsAreWords(init);
      assert s == init + [s[|s| - 1]];
      if IsWord(s) {
        if init != "" {
          assert IsWord(init);
          assert ScanOf(init).words == [] && ScanOf(init).current == init by {
            OnlyCurrent(init);
          }
        }
      }
    }
  }

  lemma {:induction false} OnlyCurrent(s: string)
    requires forall i | 0 <= i < |s| :: !IsDelimiter(s[i])
    ensures ScanOf(s) == Scan([], s)
  {
    if s != "" {
      OnlyCurrent(s[..|s| - 1]);
      assert s == s[..|s| - 1] + [s[|s| - 1]];
    }
  }

  function Joined(words: seq<string>): string {
    if words == [] then "" else words[0] + [' '] + Joined(words[1..])
  }

  /** Joining words and splitting again gives them back. */
  lemma {:induction false} SplitJoined(words: seq<string>)
    requires forall w | w in words :: IsWord(w)
    ensures Words(Joined(words)) == words
  {
    if words != [] {
      SplitAtDelimiter(words[0], ' ', Joined(words[1..]));
      WordsAreWords(words[0]);
      SplitJoined(words[1..]);
    }
  }

  // ---- similarity ----

  function WordSet(query: string): set<string> {
    set w | w in Words(query)
  }

  /** Shared words over all words; nothing is similar to nothing. */
  function Overlap(a: set<string>, b: set<string>): real {
    if a + b == {} then 0.0 else |a * b| as real / |a + b| as real
  }

  function QuerySimilarity(p: string, q: string): real {
    Overlap(WordSet(p), WordSet(q))
  }

  /** Counting, in whatever order, the words of the first set that the second has. */
  method CountShared(words1: set<string>, words2: set<string>) returns (overlap: nat)
    ensures overlap == |words1 * words2|
  {
    var left := words1;
    overlap := 0;
    ghost var counted := {};
    while left != {}
      invariant left <= words1
      invariant counted == (words1 - left) * words2 && overlap == |counted|
      decreases left
    {
      var word :| word in left;
      left := left - {word};
      if word in words2 {
        counted := counted + {word};
        overlap := overlap + 1;
      }
    }
    assert counted == words1 * words2;
  }

  lemma UnionSize(a: set<string>, b: set<string>)
    ensures |a| + |b| - |a * b| == |a + b|
    ensures |a + b| == 0 <==> a + b == {}
  {
    assert a + b == a + (b - a);
    assert b == (b - a) + (a * b);
  }

  method CalculateSimpleSimilarity(query1: string, query2: string) returns (similarity: real)
    ensures similarity == QuerySimilarity(query1, query2)
  {
    assert WordSet("") == {};
    if query1 == "" || query2 == "" {
      return 0.0;
    }
    var list1 := SplitWords(query1);
    var list2 := SplitWords(query2);
    var words1 := set w | w in list1;
    var words2 := set w | w in list2;
    var overlap := CountShared(words1, words2);
    var total := |words1| + |words2| - overlap;
    UnionSize(words1, words2);
    if total == 0 {
      return 0.0;
    }
    return overlap as real / total as real;
  }

  lemma FractionRange(x: nat, y: nat)
    requires x <= y && y > 0
    ensures 0.0 <= x as real / y as real <= 1.0
    ensures x as real / y as real == 1.0 <==> x == y
  {
  }

  lemma OverlapRange(a: set<string>, b: set<string>)
    ensures Overlap(a, b) == Overlap(b, a)
    ensures 0.0 <= Overlap(a, b) <= 1.0
    ensures Overlap(a, b) == 1.0 <==> a == b != {}
  {
    assert a * b == b * a && a + b == b + a;
    if a + b != {} {
      assert a + b == (a * b) + ((a + b) - (a * b));
      assert |a + b| == |a * b| + |(a + b) - (a * b)|;
      FractionRange(|a * b|, |a + b|);
      if |(a + b) - (a * b)| == 0 {
        assert (a + b) - (a * b) == {};
        assert forall w | w in a :: w in a + b;
        assert forall w | w in b :: w in a + b;
      }
    }
  }

  /** Similarity is symmetric, lies in [0, 1], and is 1 exactly for equal nonempty sets of words. */
  lemma SimilarityRange(p: string, q: string)
    ensures QuerySimilarity(p, q) == QuerySimilarity(q, p)
    ensures 0.0 <= QuerySimilarity(p, q) <= 1.0
    ensures QuerySimilarity(p, q) == 1.0 <==> WordSet(p) == WordSet(q) != {}
  {
    OverlapRange(WordSet(p), WordSet(q));
  }

  lemma FractionOrder(a: real, b: real, c: real, d: real)
    requires b > 0.0 && d > 0.0 && a * d <= c * b
    ensures a / b <= c / d
  {
  }

  lemma CrossProducts(a: real, b: real, c: real)
    requires 0.0 <= a <= b && c >= 0.0
    ensures a * (b + c) <= (a + c) * b
  {
    assert (a + c) * b - a * (b + c) == c * (b - a);
  }

  /** Adding the same to both parts of a fraction of at most one cannot make it smaller. */
  lemma FractionGrows(x: nat, p: nat, k: nat)
    requires x <= p && p > 0
    ensures x as real / p as real <= (x + k) as real / (p + k) as real
  {
    var a, b, c := x as real, p as real, k as real;
    CrossProducts(a, b, c);
    FractionOrder(a, b, a + c, b + c);
  }

  lemma SetsOverlap(x: set<string>, y: set<string>, u: set<string>, z: set<string>)
    requires x <= u && y <= u && x * y <= z
    ensures |x| + |y| <= |u| + |z|
  {
    assert |x + y| + |x * y| == |x| + |y|;
    Smaller(x + y, u);
    Smaller(x * y, z);
  }

  lemma Smaller(a: set<string>, b: set<string>)
    requires a <= b
    ensures |a| <= |b|
  {
    assert b == a + (b - a);
  }

  /** One side of the triangle: the sets' overlap, measured against the union of all three. */
  lemma OverlapInUnion(a: set<string>, b: set<string>, c: set<string>)
    requires a + b != {}
    ensures Overlap(a, b) <= |a * b + (c - (a + b))| as real / |a + b + c| as real
  {
    var extra := c - (a + b);
    Smaller(a * b, a + b);
    assert |a * b + extra| == |a * b| + |extra|;
    assert a + b + c == (a + b) + extra;
    assert |a + b + c| == |a + b| + |extra|;
    FractionGrows(|a * b|, |a + b|, |extra|);
  }

  /** The two sides of the triangle, together, against the union of all three. */
  lemma SidesInUnion(a: set<string>, b: set<string>, c: set<string>) returns (x: nat, y: nat)
    requires a + b != {} && b + c != {}
    ensures Overlap(a, b) <= x as real / |a + b + c| as real
    ensures Overlap(b, c) <= y as real / |a + b + c| as real
    ensures x + y <= |a + b + c| + |a * c|
  {
    var left, right := a * b + (c - (a + b)), c * b + (a - (c + b));
    OverlapInUnion(a, b, c);
    assert c + b == b + c;
    OverlapInUnion(c, b, a);
    OverlapRange(c, b);
    assert c + b + a == a + b + c;
    SetsOverlap(left, right, a + b + c, a * c);
    x, y := |left|, |right|;
  }

  /** One minus the overlap satisfies the triangle inequality. */
  lemma OverlapTriangle(a: set<string>, b: set<string>, c: set<string>)
    ensures (1.0 - Overlap(a, c)) <= (1.0 - Overlap(a, b)) + (1.0 - Overlap(b, c))
  {
    OverlapRange(a, b);
    OverlapRange(b, c);
    OverlapRange(a, c);
    if a + b != {} && b + c != {} && a + c != {} {
      var x, y := SidesInUnion(a, b, c);
      Smaller(a + c, a + b + c);
      assert |a + c| > 0;
      TriangleArithmetic(Overlap(a, b), Overlap(b, c), x, y, |a * c|, |a + b + c|, |a + c|);
    }
  }

  /** One minus the similarity satisfies the triangle inequality. */
  lemma SimilarityTriangle(p: string, q: string, r: string)
    ensures (1.0 - QuerySimilarity(p, r)) <= (1.0 - QuerySimilarity(p, q)) + (1.0 - QuerySimilarity(q, r))
  {
    OverlapTriangle(WordSet(p), WordSet(q), WordSet(r));
  }

  lemma Thirds(x: real, y: real, z: real, u: real)
    requires u > 0.0 && x + y <= u + z
    ensures x / u + y / u <= 1.0 + z / u
  {
    var i := 1.0 / u;
    assert x / u == x * i && y / u == y * i && z / u == z * i && u * i == 1.0;
    assert (x + y) * i <= (u + z) * i;
  }

  lemma TriangleArithmetic(s: real, t: real, x: nat, y: nat, z: nat, u: nat, r: nat)
    requires 0 < r <= u && x + y <= u + z
    requires s <= x as real / u as real && t <= y as real / u as real
    ensures s + t <= 1.0 + z as real / r as real
  {
    var uu, zz := u as real, z as real;
    Thirds(x as real, y as real, zz, uu);
    assert zz * r as real <= zz * uu;
    FractionOrder(zz, uu, zz, r as real);
  }

  /** How far apart consecutive queries are, in all. */
  function Drift(queries: seq<string>): real {
    if |queries| <= 1 then 0.0
    else
      var n := |queries|;
      Drift(queries[..n - 1]) + (1.0 - QuerySimilarity(queries[n - 2], queries[n - 1]))
  }

  /** Freshness degrades at most additively: after a run of queries, the first is no further from the
      last than the steps between them add up to. */
  lemma {:induction false} DriftIsAdditive(queries: seq<string>)
    requires |queries| >= 2
    ensures 1.0 - QuerySimilarity(queries[0], queries[|queries| - 1]) <= Drift(queries)
  {
    var n := |queries|;
    var init := queries[..n - 1];
    if n > 2 {
      DriftIsAdditive(init);
      SimilarityTriangle(queries[0], queries[n - 2], queries[n - 1]);
    } else {
      assert Drift(init) == 0.0;
    }
  }

  /** Shared words over all words: with the words that only one query has on either side. */
  lemma OverlapMeans(shared: set<string>, onlyA: set<string>, onlyB: set<string>)
    requires shared !! onlyA && shared !! onlyB && onlyA !! onlyB
    ensures var all := |shared| + |onlyA| + |onlyB|;
            Overlap(shared + onlyA, shared + onlyB) == if all == 0 then 0.0 else |shared| as real / all as real
  {
    var a, b := shared + onlyA, shared + onlyB;
    assert a * b == shared;
    assert a + b == shared + onlyA + onlyB;
    assert |shared + onlyA| == |shared| + |onlyA|;
    assert (shared + onlyA) * onlyB == {};
    assert |shared + onlyA + onlyB| == |shared + onlyA| + |onlyB|;
    if a + b == {} {
      assert shared == {} && onlyA == {} && onlyB == {};
    }
  }

  /** Exactly five characters part words. */
  lemma WordsPart(a: string, d: char, b: string)
    requires IsWord(a) && IsWord(b)
    ensures Words(a + [d] + b)
         == if d == ' ' || d == '\t' || d == '\n' || d == '.' || d == ',' then [a, b] else [a + [d] + b]
  {
    if IsDelimiter(d) {
      SplitAtDelimiter(a, d, b);
      WordsAreWords(a);
      WordsAreWords(b);
    } else {
      assert IsWord(a + [d] + b);
      WordsAreWords(a + [d] + b);
    }
  }

  /** The similarity of two queries made of words is the overlap of those words. */
  lemma SimilarityOfJoined(a: seq<string>, b: seq<string>)
    requires (forall w | w in a :: IsWord(w)) && (forall w | w in b :: IsWord(w))
    ensures QuerySimilarity(Joined(a), Joined(b)) == Overlap(set w | w in a, set w | w in b)
  {
    SplitJoined(a);
    SplitJoined(b);
  }
}
