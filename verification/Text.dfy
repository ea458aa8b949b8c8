/** Text as the services measure it: Go strings are UTF-8, so lengths are byte lengths. */
module Text {

  /** Bytes of one code point in UTF-8. */
  function CharBytes(c: char): (n: nat)
    ensures 1 <= n <= 4
  {
    var p := c as int;
    if p < 0x80 then 1 else if p < 0x800 then 2 else if p < 0x1_0000 then 3 else 4
  }

  /** A code point in UTF-8, section 3 of RFC 3629. */
  function Utf8(c: char): seq<int> {
    var p := c as int;
    if p < 0x80 then [p]
    else if p < 0x800 then [0xC0 + p / 64, 0x80 + p % 64]
    else if p < 0x1_0000 then [0xE0 + p / 4096, 0x80 + p / 64 % 64, 0x80 + p % 64]
    else [0xF0 + p / 262144, 0x80 + p / 4096 % 64, 0x80 + p / 64 % 64, 0x80 + p % 64]
  }

  function FromUtf8(b: seq<int>): int {
    if |b| == 1 then b[0]
    else if |b| == 2 then (b[0] - 0xC0) * 64 + (b[1] - 0x80)
    else if |b| == 3 then (b[0] - 0xE0) * 4096 + (b[1] - 0x80) * 64 + (b[2] - 0x80)
    else if |b| == 4 then (b[0] - 0xF0) * 262144 + (b[1] - 0x80) * 4096 + (b[2] - 0x80) * 64 + (b[3] - 0x80)
    else 0
  }

  /** CharBytes counts its bytes, which are bytes, and from which it can be read back. */
  lemma Utf8Bytes(c: char)
    ensures |Utf8(c)| == CharBytes(c) && forall b | b in Utf8(c) :: 0 <= b < 256
    ensures FromUtf8(Utf8(c)) == c as int
  {
    var p := c as int;
    assert p / 4096 == p / 64 / 64 && p / 262144 == p / 4096 / 64;
  }

  /** Byte length of a string, Go's `len`. */
  function Bytes(s: string): nat {
    if s == "" then 0 else Bytes(s[..|s| - 1]) + CharBytes(s[|s| - 1])
  }

  /** The bytes of a string. */
  function Encoded(s: string): seq<int> {
    if s == "" then [] else Encoded(s[..|s| - 1]) + Utf8(s[|s| - 1])
  }

  /** Bytes counts them, and estimating takes four for a token. */
  lemma {:induction false} BytesAreEncoded(s: string)
    ensures Bytes(s) == |Encoded(s)|
    ensures 4 * EstimateTokenCount(s) <= |Encoded(s)| < 4 * (EstimateTokenCount(s) + 1)
  {
    if s != "" {
      BytesAreEncoded(s[..|s| - 1]);
      Utf8Bytes(s[|s| - 1]);
    }
  }

  /** The repository's token estimate: four bytes a token, rounded down. */
  function EstimateTokenCount(text: string): nat {
    if text == "" then 0 else Bytes(text) / 4
  }

  lemma {:induction false} BytesConcat(a: string, b: string)
    ensures Bytes(a + b) == Bytes(a) + Bytes(b)
  {
    if b == "" {
      assert a + b == a;
    } else {
      assert (a + b)[..|a + b| - 1] == a + b[..|b| - 1];
      BytesConcat(a, b[..|b| - 1]);
    }
  }

  ghost predicate Ascii(s: string) {
    forall i | 0 <= i < |s| :: s[i] < 128 as char
  }

  lemma {:induction false} AsciiBytes(s: string)
    requires Ascii(s)
    ensures Bytes(s) == |s|
  {
    if s != "" {
      AsciiBytes(s[..|s| - 1]);
    }
  }

  /** Splitting text can only lose tokens to rounding: at most one for each extra piece. */
  lemma EstimateConcat(a: string, b: string)
    ensures EstimateTokenCount(a) + EstimateTokenCount(b)
         <= EstimateTokenCount(a + b)
         <= EstimateTokenCount(a) + EstimateTokenCount(b) + 1
  {
    BytesConcat(a, b);
  }

  /** Decimal rendering, Go's `%d`. */
  function Digits(n: nat): (s: string)
    ensures |s| > 0 && forall c | c in s :: '0' <= c <= '9'
  {
    var d := [(n % 10 + '0' as int) as char];
    if n < 10 then d else Digits(n / 10) + d
  }

  function Decimal(n: int): (s: string)
    ensures |s| > 0 && '_' !in s
  {
    if n >= 0 then Digits(n) else "-" + Digits(-n)
  }

  /** The value that decimal digits stand for. */
  function ValueOf(digits: string): int {
    if digits == "" then 0
    else 10 * ValueOf(digits[..|digits| - 1]) + (digits[|digits| - 1] as int - '0' as int)
  }

  /** Rendering and reading back gives the number; and there is no leading zero but for zero itself. */
  lemma {:induction false} DigitsReadBack(n: nat)
    ensures ValueOf(Digits(n)) == n
    ensures n > 0 ==> Digits(n)[0] != '0'
  {
    var d := Digits(n);
    if n >= 10 {
      DigitsReadBack(n / 10);
      assert d[..|d| - 1] == Digits(n / 10);
    } else {
      assert d[..|d| - 1] == "";
    }
  }

  lemma {:induction false} DigitsInjective(m: nat, n: nat)
    requires Digits(m) == Digits(n)
    ensures m == n
    decreases m
  {
    var a, b := Digits(m), Digits(n);
    assert a[|a| - 1] == b[|b| - 1];
    assert m % 10 == n % 10;
    if m >= 10 && n >= 10 {
      assert Digits(m / 10) == a[..|a| - 1] == b[..|b| - 1] == Digits(n / 10);
      DigitsInjective(m / 10, n / 10);
    }
  }

  lemma DecimalInjective(m: int, n: int)
    ensures Decimal(m) == Decimal(n) ==> m == n
  {
    assert m >= 0 ==> Decimal(m)[0] in Digits(m);
    assert n >= 0 ==> Decimal(n)[0] in Digits(n);
    if Decimal(m) == Decimal(n) {
      if m >= 0 {
        DigitsInjective(m, n);
      } else {
        assert Decimal(m)[1..] == Digits(-m) && Decimal(n)[1..] == Digits(-n);
        DigitsInjective(-m, -n);
      }
    }
  }

  /** Go's string order: lexicographic (code point order is UTF-8 byte order). */
  predicate AtMost(a: string, b: string) {
    a == "" || (b != "" && (a[0] < b[0] || (a[0] == b[0] && AtMost(a[1..], b[1..]))))
  }

  lemma AtMostTotal(a: string, b: string)
    ensures AtMost(a, b) || AtMost(b, a)
    ensures AtMost(a, b) && AtMost(b, a) ==> a == b
  {
    if a != "" && b != "" && a[0] == b[0] {
      AtMostTotal(a[1..], b[1..]);
      assert a == [a[0]] + a[1..] && b == [b[0]] + b[1..];
    }
  }

  /** The first difference decides; without one the shorter comes first. */
  lemma {:induction false} FirstDifference(p: string, x: char, a: string, y: char, b: string)
    ensures AtMost(p + [x] + a, p + [y] + b) <==> x < y || (x == y && AtMost(a, b))
    ensures AtMost(p, p + a) && (AtMost(p + a, p) <==> a == "")
  {
    if p != "" {
      FirstDifference(p[1..], x, a, y, b);
      assert (p + [x] + a)[1..] == p[1..] + [x] + a && (p + [y] + b)[1..] == p[1..] + [y] + b;
      assert (p + a)[1..] == p[1..] + a;
    } else {
      assert [x] + a == p + [x] + a && [y] + b == p + [y] + b && p + a == a;
      assert ([x] + a)[1..] == a && ([y] + b)[1..] == b;
    }
  }

  lemma AtMostTransitive(a: string, b: string, c: string)
    requires AtMost(a, b) && AtMost(b, c)
    ensures AtMost(a, c)
  {
    if a != "" && b != "" && c != "" && a[0] == b[0] == c[0] {
      AtMostTransitive(a[1..], b[1..], c[1..]);
    }
  }
}
