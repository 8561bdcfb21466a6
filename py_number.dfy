/** Python's `"%.Nf" % x` on an exact real: round half to even at N decimal
    places, print a `-` for any negative value (also one that rounds to
    zero), then the whole part, a point and exactly N digits. */
module PyNumber {
  import opened PyText

  function Pow10(n: nat): (r: nat)
    ensures r >= 1
  {
    if n == 0 then 1 else 10 * Pow10(n - 1)
  }

  /** Whole quotient and remainder by a positive divisor. */
  function Quot(m: nat, d: nat): (q: nat)
    requires d >= 1
  {
    m / d
  }

  function Rem(m: nat, d: nat): (r: nat)
    requires d >= 1
  {
    m % d
  }

  lemma QuotRem(m: nat, d: nat)
    requires d >= 1
    ensures Rem(m, d) < d && Quot(m, d) * d + Rem(m, d) == m
  {
  }

  function Scale(p: nat): real {
    Pow10(p) as real
  }

  /** `x` with the decimal point moved `p` places to the right. */
  function Shifted(x: real, p: nat): real {
    x * Scale(p)
  }

  function Abs(n: int): nat {
    if n < 0 then -n else n
  }

  /** The integer nearest to `y`, the even one of two equally near. */
  function RoundHalfEven(y: real): (n: int)
    ensures -0.5 <= n as real - y <= 0.5
    ensures (n as real - y == 0.5 || y - n as real == 0.5) ==> n % 2 == 0
    ensures y == y.Floor as real ==> n == y.Floor
  {
    var f := y.Floor;
    var d := y - f as real;
    if d < 0.5 then f
    else if d > 0.5 then f + 1
    else if f % 2 == 0 then f
    else f + 1
  }

  predicate AllDigits(s: string) {
    forall i :: 0 <= i < |s| ==> IsDigit(s[i])
  }

  function Zeros(k: nat): (z: string)
    ensures |z| == k && AllDigits(z)
  {
    seq(k, _ => '0')
  }

  /** Left-pads a digit string with zeros to width `w`. */
  function Pad(s: string, w: nat): (r: string)
    requires AllDigits(s)
    ensures AllDigits(r)
    ensures |r| == if |s| < w then w else |s|
  {
    if |s| < w then Zeros(w - |s|) + s else s
  }

  /** The scaled, rounded magnitude that `"%.{p}f" % x` prints as digits. */
  function FixedDigits(x: real, p: nat): nat {
    Abs(RoundHalfEven(Shifted(x, p)))
  }

  /** `"%.{p}f" % x`. */
  function Fixed(x: real, p: nat): string
    requires p >= 1
  {
    Signed(x < 0.0, PointDigits(FixedDigits(x, p), p))
  }

  /** A leading `-` when `negative`. */
  function Signed(negative: bool, digits: string): string {
    if negative then "-" + digits else digits
  }

  /** `m / 10^p` printed with exactly `p` decimals. */
  function PointDigits(m: nat, p: nat): string
    requires p >= 1
  {
    NatStr(Quot(m, Pow10(p))) + "." + Pad(NatStr(Rem(m, Pow10(p))), p)
  }

  /** `u` is digits, a point and `p` more digits, and reads back as `m`
      hundredths (for `p` = 2), thousandths (for `p` = 3), and so on. */
  predicate ReadsBack(u: string, p: nat, m: nat) {
    && |u| >= p + 2 && u[|u| - p - 1] == '.'
    && AllDigits(u[..|u| - p - 1]) && AllDigits(u[|u| - p..])
    && DigitsValue(u[..|u| - p - 1]) * Pow10(p) + DigitsValue(u[|u| - p..]) == m
  }

  /** Reading the printed number back: the sign shows whether `x` is
      negative, and what follows it reads back as the rounded value. */
  lemma FixedReadsBack(x: real, p: nat)
    requires p >= 1
    ensures x < 0.0 <==> (Fixed(x, p) != [] && Fixed(x, p)[0] == '-')
    ensures ReadsBack(if x < 0.0 then Fixed(x, p)[1..] else Fixed(x, p), p, FixedDigits(x, p))
  {
    var m := FixedDigits(x, p);
    PointDigitsReadBack(m, p);
    var u := PointDigits(m, p);
    var r := Fixed(x, p);
    if x < 0.0 {
      assert r == "-" + u;
      assert r[1..] == u;
    } else {
      assert r == u;
      assert u[0] != '-';
    }
  }

  lemma PointDigitsReadBack(m: nat, p: nat)
    requires p >= 1
    ensures ReadsBack(PointDigits(m, p), p, m)
  {
    var whole := NatStr(Quot(m, Pow10(p)));
    var frac := Pad(NatStr(Rem(m, Pow10(p))), p);
    FixedLayout(m, p);
    var u := PointDigits(m, p);
    PointSplits(whole, frac);
    assert |frac| == p && |u| - p - 1 == |whole|;
    assert u[..|u| - p - 1] == whole && u[|u| - p..] == frac;
  }

  lemma PointSplits(whole: string, frac: string)
    ensures var u := whole + "." + frac;
      |u| == |whole| + |frac| + 1 && u[|whole|] == '.' && u[..|whole|] == whole && u[|whole| + 1..] == frac
  {
  }

  lemma FixedLayout(m: nat, p: nat)
    requires p >= 1
    ensures |Pad(NatStr(Rem(m, Pow10(p))), p)| == p
    ensures DigitsValue(NatStr(Quot(m, Pow10(p)))) * Pow10(p) + DigitsValue(Pad(NatStr(Rem(m, Pow10(p))), p)) == m
  {
    var P := Pow10(p);
    var q, r := Quot(m, P), Rem(m, P);
    QuotRem(m, P);
    NatStrShort(r, p);
    NatStrRoundTrip(q);
    NatStrRoundTrip(r);
    PadValue(NatStr(r), p);
  }

  /** A number below 10^p prints in at most p digits. */
  lemma {:induction false} NatStrShort(n: nat, p: nat)
    requires p >= 1 && n < Pow10(p)
    ensures |NatStr(n)| <= p
  {
    if n >= 10 {
      assert Pow10(p) == 10 * Pow10(p - 1);
      assert n / 10 < Pow10(p - 1);
      NatStrShort(n / 10, p - 1);
    }
  }

  /** Leading zeros do not change the value. */
  lemma PadValue(s: string, w: nat)
    requires AllDigits(s)
    ensures DigitsValue(Pad(s, w)) == DigitsValue(s)
  {
    if |s| < w {
      var z := Zeros(w - |s|);
      assert Pad(s, w) == z + s;
      DigitsValueAppend(z, s);
      ZerosValue(w - |s|);
      assert DigitsValue(z) * Pow10(|s|) == 0;
    }
  }

  lemma {:induction false} ZerosValue(k: nat)
    ensures DigitsValue(Zeros(k)) == 0
  {
    if k > 0 {
      assert Zeros(k)[..k - 1] == Zeros(k - 1);
      ZerosValue(k - 1);
    }
  }

  lemma {:induction false} DigitsValueAppend(a: string, b: string)
    requires AllDigits(a) && AllDigits(b)
    ensures DigitsValue(a + b) == DigitsValue(a) * Pow10(|b|) + DigitsValue(b)
    decreases |b|
  {
    if b == [] {
      assert a + b == a;
    } else {
      var b' := b[..|b| - 1];
      assert (a + b)[..|a + b| - 1] == a + b';
      assert (a + b)[|a + b| - 1] == b[|b| - 1];
      DigitsValueAppend(a, b');
      var d := b[|b| - 1] as int - '0' as int;
      var A, B, V := DigitsValue(a), Pow10(|b'|), DigitsValue(b');
      assert DigitsValue(b) == 10 * V + d;
      assert Pow10(|b|) == 10 * B;
      ShiftDecimal(A, B);
      calc {
        DigitsValue(a + b);
        10 * DigitsValue(a + b') + d;
        10 * (A * B + V) + d;
        10 * (A * B) + (10 * V + d);
        A * (10 * B) + (10 * V + d);
        A * Pow10(|b|) + DigitsValue(b);
      }
    }
  }

  lemma ShiftDecimal(a: int, b: int)
    ensures 10 * (a * b) == a * (10 * b)
  {
  }

  /** A value with at most `p` decimals prints exactly: no rounding happens. */
  lemma ExactDecimals(k: int, p: nat)
    requires p >= 1
    ensures FixedDigits(k as real / Scale(p), p) == Abs(k)
  {
    ShiftCancels(k as real, p);
    IntegerRounds(k);
  }

  lemma ShiftCancels(y: real, p: nat)
    ensures Shifted(y / Scale(p), p) == y
  {
    RealCancel(y, Scale(p));
  }

  /** A whole number rounds to itself. */
  lemma IntegerRounds(k: int)
    ensures RoundHalfEven(k as real) == k
  {
    assert (k as real).Floor == k;
  }

  lemma RealCancel(k: real, d: real)
    requires d > 0.0
    ensures k / d * d == k
  {
  }
}
