/** Zero-padded decimal message ids, and when their string order is their numeric order. */
module Decimal {
  import opened Text

  function Digit(d: nat): char
    requires d < 10
  {
    '0' + d as char
  }

  // fmt.Sprintf("%d", n)
  function Digits(n: nat): (s: string)
    ensures |s| > 0
  {
    if n < 10 then [Digit(n)] else Digits(n / 10) + [Digit(n % 10)]
  }

  function Zeros(k: nat): (s: string)
    ensures |s| == k
  {
    if k == 0 then "" else "0" + Zeros(k - 1)
  }

  // fmt.Sprintf("%010d", n): longer numbers are not cut.
  function Pad10(n: nat): string {
    var s := Digits(n);
    if |s| >= 10 then s else Zeros(10 - |s|) + s
  }

  function Power(w: nat): (p: nat)
    ensures p > 0
  {
    if w == 0 then 1 else 10 * Power(w - 1)
  }

  const LIMIT: nat := 10_000_000_000

  // The last w digits of n.
  function Fixed(n: nat, w: nat): (s: string)
    ensures |s| == w
  {
    if w == 0 then "" else Fixed(n / 10, w - 1) + [Digit(n % 10)]
  }

  lemma {:induction false} FixedZero(w: nat)
    ensures Fixed(0, w) == Zeros(w)
  {
    if w > 0 {
      FixedZero(w - 1);
      ZerosSnoc(w - 1);
    }
  }

  lemma {:induction false} ZerosSnoc(k: nat)
    ensures Zeros(k) + "0" == Zeros(k + 1)
  {
    if k > 0 {
      ZerosSnoc(k - 1);
      assert Zeros(k) + "0" == "0" + (Zeros(k - 1) + "0");
    }
  }

  lemma {:induction false} DigitsFit(n: nat, w: nat)
    requires n < Power(w) && w > 0
    ensures |Digits(n)| <= w && Fixed(n, w) == Zeros(w - |Digits(n)|) + Digits(n)
  {
    if n < 10 {
      FixedZero(w - 1);
    } else {
      assert Power(1) == 10 * Power(0) == 10;
      DigitsFit(n / 10, w - 1);
      assert Zeros(w - |Digits(n)|) + Digits(n) == Zeros(w - 1 - |Digits(n / 10)|) + Digits(n / 10) + [Digit(n % 10)];
    }
  }

  lemma {:induction false} LeqExtends(x: string, y: string, s: string, t: string)
    requires |x| == |y| && x != y && Leq(x, y)
    ensures Leq(x + s, y + t)
  {
    if x[0] == y[0] {
      assert x == [x[0]] + x[1..] && y == [y[0]] + y[1..];
      assert (x + s)[1..] == x[1..] + s && (y + t)[1..] == y[1..] + t;
      LeqExtends(x[1..], y[1..], s, t);
    }
  }

  lemma {:induction false} FixedOrder(a: nat, b: nat, w: nat)
    requires a < b < Power(w)
    ensures Leq(Fixed(a, w), Fixed(b, w)) && Fixed(a, w) != Fixed(b, w)
  {
    var x, y := Fixed(a / 10, w - 1), Fixed(b / 10, w - 1);
    var c, d := [Digit(a % 10)], [Digit(b % 10)];
    if a / 10 < b / 10 {
      FixedOrder(a / 10, b / 10, w - 1);
      LeqExtends(x, y, c, d);
      assert (x + c)[..w - 1] == x && (y + d)[..w - 1] == y;
    } else {
      LeqSamePrefix(x, c, d);
      assert (x + c)[w - 1] != (y + d)[w - 1];
    }
  }

  // ---- Distinct ids are distinct strings ----

  function Value(s: string): int {
    if s == "" then 0 else 10 * Value(s[..|s| - 1]) + (s[|s| - 1] as int - '0' as int)
  }

  lemma {:induction false} ValueOfDigits(n: nat)
    ensures Value(Digits(n)) == n
  {
    if n < 10 {
      assert [Digit(n)][..0] == "";
    } else {
      ValueOfDigits(n / 10);
      assert Digits(n)[..|Digits(n)| - 1] == Digits(n / 10);
    }
  }

  lemma {:induction false} ValueSkipsZeros(k: nat, s: string)
    ensures Value(Zeros(k) + s) == Value(s)
  {
    if s == "" {
      assert Zeros(k) + s == Zeros(k);
      if k > 0 {
        ZerosSnoc(k - 1);
        assert Zeros(k)[..k - 1] == Zeros(k - 1) == Zeros(k - 1) + "";
        ValueSkipsZeros(k - 1, "");
      }
    } else {
      ValueSkipsZeros(k, s[..|s| - 1]);
      assert (Zeros(k) + s)[..k + |s| - 1] == Zeros(k) + s[..|s| - 1];
    }
  }

  lemma PadValue(n: nat)
    ensures Value(Pad10(n)) == n
  {
    ValueOfDigits(n);
    if |Digits(n)| < 10 { ValueSkipsZeros(10 - |Digits(n)|, Digits(n)); }
  }

  lemma DigitsClean(n: nat)
    ensures ':' !in Digits(n)
  {
  }

  lemma {:induction false} PadClean(n: nat)
    ensures ':' !in Pad10(n)
  {
    DigitsClean(n);
    ZerosClean(10);
    if |Digits(n)| < 10 { ZerosClean(10 - |Digits(n)|); }
  }

  lemma ZerosClean(k: nat)
    ensures ':' !in Zeros(k)
  {
  }

  // ---- The order, and its bound ----

  // a sorts strictly before b.
  predicate Before(a: string, b: string) {
    Leq(a, b) && a != b
  }

  lemma PowerTen()
    ensures Power(10) == LIMIT
  {
    assert Power(2) == 100 && Power(4) == 10_000;
    assert Power(6) == 1_000_000 && Power(8) == 100_000_000;
  }

  lemma PadOrder(a: nat, b: nat)
    requires a < b < LIMIT
    ensures Before(Pad10(a), Pad10(b))
  {
    PowerTen();
    DigitsFit(a, 10);
    DigitsFit(b, 10);
    FixedOrder(a, b, 10);
    assert Fixed(a, 10) == Pad10(a) by { if |Digits(a)| == 10 { assert Zeros(0) + Digits(a) == Digits(a); } }
    assert Fixed(b, 10) == Pad10(b) by { if |Digits(b)| == 10 { assert Zeros(0) + Digits(b) == Digits(b); } }
  }

  lemma FirstDigit(n: nat)
    requires n >= 10
    ensures Digits(n)[0] == Digits(n / 10)[0] && |Digits(n)| == |Digits(n / 10)| + 1
  {
  }

  lemma {:induction false} LeadingDigit(d: nat, k: nat, n: nat)
    requires 0 < d < 10 && d * Power(k) <= n < (d + 1) * Power(k)
    ensures Digits(n)[0] == Digit(d) && |Digits(n)| == k + 1
  {
    if k > 0 {
      var q := Power(k - 1);
      assert d * Power(k) == 10 * (d * q) && (d + 1) * Power(k) == 10 * ((d + 1) * q);
      assert d * q <= n / 10 < (d + 1) * q;
      assert n >= 10;
      LeadingDigit(d, k - 1, n / 10);
      FirstDigit(n);
    } else {
      assert n == d;
    }
  }

  lemma PadBreaks()
    ensures !Leq(Pad10(LIMIT - 1), Pad10(LIMIT))
  {
    var a, b := LIMIT - 1, LIMIT;
    PowerTen();
    assert Power(10) == 10 * Power(9);
    LeadingDigit(9, 9, a);
    LeadingDigit(1, 10, b);
    assert Pad10(a)[0] == '9' && Pad10(b)[0] == '1';
  }

  /** String order is numeric order for all ids up to top if and only if top has at
      most ten digits: 9999999999 and 10000000000 already sort the wrong way round. */
  lemma PadOrderIff(top: nat)
    ensures (forall a, b :: 0 < a < b <= top ==> Before(Pad10(a), Pad10(b))) <==> top < LIMIT
  {
    if top < LIMIT {
      forall a: nat, b: nat | 0 < a < b <= top ensures Before(Pad10(a), Pad10(b)) { PadOrder(a, b); }
    } else {
      PadBreaks();
      assert !Before(Pad10(LIMIT - 1), Pad10(LIMIT));
    }
  }
}
