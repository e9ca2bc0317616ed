/** Decimal numbers and separated fields in strings. */
module Text {
  import opened Wrappers

  predicate IsDigit(c: char) {
    '0' <= c <= '9'
  }

  function Digit(n: nat): (c: char)
    requires n < 10
    ensures IsDigit(c)
  {
    '0' + n as char
  }

  function DigitValue(c: char): (n: nat)
    requires IsDigit(c)
    ensures n < 10
  {
    (c - '0') as nat
  }

  /** `strconv.FormatUint(n, 10)`. */
  function Decimal(n: nat): (s: string)
    ensures s != [] && forall i | 0 <= i < |s| :: IsDigit(s[i])
  {
    if n < 10 then [Digit(n)] else Decimal(n / 10) + [Digit(n % 10)]
  }

  /** The number a string of digits stands for. */
  function Value(s: string): nat
    requires forall i | 0 <= i < |s| :: IsDigit(s[i])
  {
    if s == [] then 0 else Value(s[..|s| - 1]) * 10 + DigitValue(s[|s| - 1])
  }

  const MAX_UINT64: nat := 0xFFFF_FFFF_FFFF_FFFF

  /** `strconv.ParseUint(s, 10, 64)`: digits only, at least one, leading zeros allowed, in range. */
  function ParseUint(s: string): Option<nat> {
    if s != [] && (forall i | 0 <= i < |s| :: IsDigit(s[i])) && Value(s) <= MAX_UINT64 then Some(Value(s)) else None
  }

  lemma {:induction false} DecimalValue(n: nat)
    ensures Value(Decimal(n)) == n
  {
    if n >= 10 {
      DecimalValue(n / 10);
      assert Decimal(n)[..|Decimal(n)| - 1] == Decimal(n / 10);
    }
  }

  lemma DecimalInjective(m: nat, n: nat)
    requires Decimal(m) == Decimal(n)
    ensures m == n
  {
    DecimalValue(m);
    DecimalValue(n);
  }

  function Pow10(k: nat): (p: nat)
    ensures p >= 1
  {
    if k == 0 then 1 else 10 * Pow10(k - 1)
  }

  /** A number has `k` digits when it is below the k-th power of ten and not below the one before. */
  lemma {:induction false} DecimalLength(n: nat)
    ensures n < Pow10(|Decimal(n)|)
    ensures n > 0 ==> Pow10(|Decimal(n)| - 1) <= n
  {
    if n >= 10 {
      DecimalLength(n / 10);
    }
  }

  lemma {:induction false} Pow10Grows(j: nat, k: nat)
    requires j <= k
    ensures Pow10(j) <= Pow10(k)
  {
    if j < k {
      Pow10Grows(j, k - 1);
    }
  }

  /** Zeros in front do not change a number. */
  function Zeros(k: nat): (s: string)
    ensures |s| == k && forall i | 0 <= i < k :: s[i] == '0'
  {
    seq(k, i => '0')
  }

  /** Another digit behind a number that is not zero. */
  lemma DecimalNext(n: nat, last: char)
    requires n > 0 && IsDigit(last)
    ensures Decimal(n * 10 + DigitValue(last)) == Decimal(n) + [last]
  {
    var m := n * 10 + DigitValue(last);
    assert m / 10 == n && m % 10 == DigitValue(last);
  }

  lemma OnlyZeros(front: string, k: nat)
    requires front == Zeros(k) + "0"
    ensures front == Zeros(|front|)
  {
  }

  lemma NextDigit(front: string, last: char, k: nat) returns (j: nat)
    requires (forall i | 0 <= i < |front| :: IsDigit(front[i])) && IsDigit(last)
    requires k < |front| && front == Zeros(k) + Decimal(Value(front))
    ensures j <= |front| && front + [last] == Zeros(j) + Decimal(Value(front) * 10 + DigitValue(last))
  {
    var d := Decimal(Value(front));
    if Value(front) > 0 {
      DecimalNext(Value(front), last);
      assert (Zeros(k) + d) + [last] == Zeros(k) + (d + [last]);
      j := k;
    } else {
      OnlyZeros(front, k);
      j := |front|;
    }
  }

  /** What stands for a number is its decimal form behind some zeros. */
  lemma {:induction false} DigitsAreDecimal(s: string) returns (k: nat)
    requires s != [] && forall i | 0 <= i < |s| :: IsDigit(s[i])
    ensures k < |s| && s == Zeros(k) + Decimal(Value(s))
  {
    var front, last := s[..|s| - 1], s[|s| - 1];
    assert s == front + [last];
    if front == [] {
      assert Value(s) == DigitValue(last);
      k := 0;
      assert s == Zeros(k) + Decimal(Value(s));
    } else {
      var j := DigitsAreDecimal(front);
      k := NextDigit(front, last, j);
    }
  }

  lemma ShorterField(a: string, x: string, b: string, y: string, separator: char)
    requires a + [separator] + x == b + [separator] + y
    ensures |a| < |b| ==> separator in b
  {
    assert (a + [separator] + x)[|a|] == separator;
    assert |a| < |b| ==> (b + [separator] + y)[|a|] == b[|a|];
  }

  /** A field ends at the first separator. */
  lemma FieldEnds(a: string, x: string, b: string, y: string, separator: char)
    requires a + [separator] + x == b + [separator] + y
    requires separator !in a && separator !in b
    ensures a == b && x == y
  {
    ShorterField(a, x, b, y, separator);
    ShorterField(b, y, a, x, separator);
    var s, t := a + [separator] + x, b + [separator] + y;
    assert a == s[..|a|] && b == t[..|b|];
    assert x == s[|a| + 1..] && y == t[|b| + 1..];
  }
}
