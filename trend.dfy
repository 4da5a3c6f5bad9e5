/** The trend estimator: an ordinary least-squares slope of the scores against
    their 0-based index, classified with a fixed dead band of 0.1. The same
    routine appears, token for token, in both analyser files. */
module Trend {
  import opened Seqs

  datatype Trend = Improving | Declining | Stable

  const DeadBand: real := 0.1

  /** sum of i for 0 <= i < n */
  function SumX(n: nat): nat
  {
    if n == 0 then 0 else SumX(n - 1) + (n - 1)
  }

  /** sum of i * i for 0 <= i < n */
  function SumX2(n: nat): nat
  {
    if n == 0 then 0 else SumX2(n - 1) + (n - 1) * (n - 1)
  }

  /** sum of i * s[i] */
  function SumXY(s: seq<int>): int
  {
    if s == [] then 0 else SumXY(s[..|s| - 1]) + (|s| - 1) * s[|s| - 1]
  }

  /** n * sumXY - sumX * sumY */
  function Numerator(s: seq<int>): int
  {
    |s| * SumXY(s) - SumX(|s|) * Sum(s)
  }

  /** n * sumX2 - sumX * sumX */
  function Denominator(n: nat): int
  {
    n * SumX2(n) - SumX(n) * SumX(n)
  }

  lemma {:induction false} SumXClosed(n: nat)
    ensures 2 * SumX(n) == n * (n - 1)
  {
    if n > 0 { SumXClosed(n - 1); }
  }

  lemma {:induction false} SumX2Closed(n: nat)
    ensures 6 * SumX2(n) == (n - 1) * n * (2 * n - 1)
  {
    if n > 0 {
      SumX2Closed(n - 1);
      SquaresStep(n);
    }
  }

  /** The step of the closed form of the sum of squares, as a polynomial identity. */
  lemma SquaresStep(n: int)
    ensures (n - 1 - 1) * (n - 1) * (2 * (n - 1) - 1) + 6 * ((n - 1) * (n - 1)) == (n - 1) * n * (2 * n - 1)
  {
  }

  /** The denominator is n^2 (n^2 - 1) / 12. */
  lemma DenominatorClosed(n: nat)
    requires n >= 2
    ensures 12 * Denominator(n) == n * n * (n * n - 1)
  {
    SumXClosed(n);
    SumX2Closed(n);
    DenominatorPolynomial(n, SumX(n), SumX2(n));
  }

  /** So the denominator is positive from two points on. */
  lemma DenominatorPositive(n: nat)
    requires n >= 2
    ensures Denominator(n) > 0
  {
    SumXClosed(n);
    SumX2Closed(n);
    DenominatorPolynomial(n, SumX(n), SumX2(n));
  }

  /** 12 (n b - a^2) = n^2 (n^2 - 1) when 2a = n (n - 1) and
      6b = (n - 1) n (2n - 1); positive from n = 2 on. */
  lemma DenominatorPolynomial(n: int, a: int, b: int)
    requires n >= 2
    requires 2 * a == n * (n - 1) && 6 * b == (n - 1) * n * (2 * n - 1)
    ensures 12 * (n * b - a * a) == n * n * (n * n - 1) > 0
  {
    var sq := n * n;
    calc {
      12 * (n * b - a * a);
      == 2 * n * (6 * b) - 3 * (2 * a) * (2 * a);
      == 2 * n * ((n - 1) * n * (2 * n - 1)) - 3 * (n * (n - 1)) * (n * (n - 1));
      == sq * ((n - 1) * (4 * n - 2)) - 3 * (sq * ((n - 1) * (n - 1)));
      == sq * (sq - 1);
    }
    assert sq >= 4;
  }

  function Slope(s: seq<int>): real
    requires |s| >= 2
  {
    DenominatorPositive(|s|);
    Numerator(s) as real / Denominator(|s|) as real
  }

  function Abs(x: real): real { if x < 0.0 then -x else x }

  /** The decision on a computed slope. */
  function ClassifySlope(slope: real): Trend
  {
    if Abs(slope) < DeadBand then Stable
    else if slope > 0.0 then Improving
    else Declining
  }

  /** `calculateTrend` as a specification. */
  function Classify(s: seq<int>): Trend
  {
    if |s| < 2 then Stable else ClassifySlope(Slope(s))
  }

  /** For num / den with den > 0 the decision needs no division. */
  lemma ClassifyQuotient(num: real, den: real)
    requires den > 0.0
    ensures ClassifySlope(num / den) == Stable <==> -den < 10.0 * num < den
    ensures ClassifySlope(num / den) == Improving <==> 10.0 * num >= den
    ensures ClassifySlope(num / den) == Declining <==> 10.0 * num <= -den
  {
    var slope := num / den;
    QuotientOrder(num, den, DeadBand);
    QuotientOrder(num, den, -DeadBand);
    assert DeadBand * den * 10.0 == den;
    assert slope < DeadBand <==> 10.0 * num < den;
    assert -DeadBand < slope <==> -den < 10.0 * num;
    assert Abs(slope) < DeadBand <==> -DeadBand < slope < DeadBand;
  }

  /** Comparing num / den with a constant c is comparing num with c * den. */
  lemma QuotientOrder(num: real, den: real, c: real)
    requires den > 0.0
    ensures num / den < c <==> num < c * den
    ensures c < num / den <==> c * den < num
  {
    var q := num / den;
    assert q * den == num;
    ScaleByPositive(q, c, den);
    ScaleByPositive(c, q, den);
  }

  /** Multiplying both sides by a positive number keeps a strict order. */
  lemma ScaleByPositive(a: real, b: real, den: real)
    requires den > 0.0
    ensures a < b <==> a * den < b * den
  {
    assert b * den - a * den == (b - a) * den;
  }

  /** The classification is an exact integer test: with D > 0 the slope N / D
      is in the dead band iff 10 |N| < D, and its sign is the sign of N. */
  lemma ClassifyBySign(s: seq<int>)
    requires |s| >= 2
    ensures Classify(s) == Stable <==> -Denominator(|s|) < 10 * Numerator(s) < Denominator(|s|)
    ensures Classify(s) == Improving <==> 10 * Numerator(s) >= Denominator(|s|)
    ensures Classify(s) == Declining <==> 10 * Numerator(s) <= -Denominator(|s|)
  {
    DenominatorPositive(|s|);
    ClassifyQuotient(Numerator(s) as real, Denominator(|s|) as real);
  }

  /** Fewer than two scores are always stable. */
  lemma ShortIsStable(s: seq<int>)
    requires |s| < 2
    ensures Classify(s) == Stable
  {
  }

  function Shift(s: seq<int>, c: int): (r: seq<int>)
    ensures |r| == |s|
  {
    if s == [] then [] else Shift(s[..|s| - 1], c) + [s[|s| - 1] + c]
  }

  lemma {:induction false} ShiftSums(s: seq<int>, c: int)
    ensures Sum(Shift(s, c)) == Sum(s) + |s| * c
    ensures SumXY(Shift(s, c)) == SumXY(s) + SumX(|s|) * c
  {
    if s != [] {
      var init := s[..|s| - 1];
      ShiftSums(init, c);
      var r := Shift(s, c);
      assert r[..|r| - 1] == Shift(init, c);
    }
  }

  /** Adding the same constant to every score leaves the slope, and so the
      classification, unchanged. */
  lemma ShiftInvariant(s: seq<int>, c: int)
    ensures Classify(Shift(s, c)) == Classify(s)
  {
    ShiftSums(s, c);
    CrossTermsCancel(|s|, SumXY(s), Sum(s), SumX(|s|), c);
    assert Numerator(Shift(s, c)) == Numerator(s);
  }

  lemma CrossTermsCancel(n: int, a: int, b: int, x: int, c: int)
    ensures n * (a + x * c) - x * (b + n * c) == n * a - x * b
  {
    assert n * (a + x * c) == n * a + n * (x * c);
    assert x * (b + n * c) == x * b + x * (n * c);
  }

  function Scale(s: seq<int>, k: int): (r: seq<int>)
    ensures |r| == |s|
  {
    if s == [] then [] else Scale(s[..|s| - 1], k) + [k * s[|s| - 1]]
  }

  lemma {:induction false} ScaleSums(s: seq<int>, k: int)
    ensures Sum(Scale(s, k)) == k * Sum(s)
    ensures SumXY(Scale(s, k)) == k * SumXY(s)
  {
    if s != [] {
      var init, last := s[..|s| - 1], s[|s| - 1];
      ScaleSums(init, k);
      var r := Scale(s, k);
      assert r[..|r| - 1] == Scale(init, k) && r[|r| - 1] == k * last;
      Distributes(k, Sum(init), last);
      Distributes(k, SumXY(init), (|s| - 1) * last);
      Reassociates(|s| - 1, k, last);
    }
  }

  lemma Distributes(k: int, a: int, b: int)
    ensures k * a + k * b == k * (a + b)
  {
  }

  lemma Reassociates(m: int, k: int, x: int)
    ensures m * (k * x) == k * (m * x)
  {
  }

  lemma ScaleNumerator(s: seq<int>, k: int)
    ensures Numerator(Scale(s, k)) == k * Numerator(s)
  {
    ScaleSums(s, k);
    CommonFactor(|s|, SumXY(s), SumX(|s|), Sum(s), k);
  }

  lemma CommonFactor(n: int, a: int, x: int, b: int, k: int)
    ensures n * (k * a) - x * (k * b) == k * (n * a - x * b)
  {
    assert n * (k * a) == k * (n * a);
    assert x * (k * b) == k * (x * b);
  }

  /** A factor k >= 1 keeps an integer at least as far from zero. */
  lemma FactorKeepsBand(num: int, m: int, k: int, den: int)
    requires k >= 1 && den > 0 && m == k * num
    ensures 10 * num >= den ==> 10 * m >= den
    ensures 10 * num <= -den ==> 10 * m <= -den
  {
    if num > 0 {
      assert k * num >= num;
    } else if num < 0 {
      assert k * num <= num;
    }
  }

  /** Multiplying every score by k >= 1 keeps a non-stable trend and its
      direction. (The dead band is absolute, so a factor can turn a stable
      series into a moving one: stability itself is not preserved.) */
  lemma ScaleKeepsDirection(s: seq<int>, k: int)
    requires k >= 1 && Classify(s) != Stable
    ensures Classify(Scale(s, k)) == Classify(s)
  {
    ClassifyBySign(s);
    ClassifyBySign(Scale(s, k));
    ScaleKeepsBand(s, k);
  }

  lemma ScaleKeepsBand(s: seq<int>, k: int)
    requires k >= 1 && |s| >= 2
    ensures 10 * Numerator(s) >= Denominator(|s|) ==> 10 * Numerator(Scale(s, k)) >= Denominator(|s|)
    ensures 10 * Numerator(s) <= -Denominator(|s|) ==> 10 * Numerator(Scale(s, k)) <= -Denominator(|s|)
  {
    DenominatorPositive(|s|);
    ScaleNumerator(s, k);
    FactorKeepsBand(Numerator(s), Numerator(Scale(s, k)), k, Denominator(|s|));
  }

  /** `calculateTrend`: accumulates sumX, sumY, sumXY and sumX2 in one pass. */
  method CalculateTrend(scores: seq<int>) returns (t: Trend)
    ensures t == Classify(scores)
    ensures |scores| < 2 ==> t == Stable
  {
    if |scores| < 2 {
      return Stable;
    }
    var n := |scores|;
    var sumX, sumY, sumXY, sumX2 := 0, 0, 0, 0;
    for i := 0 to n
      invariant sumX == SumX(i) && sumX2 == SumX2(i)
      invariant sumY == Sum(scores[..i]) && sumXY == SumXY(scores[..i])
    {
      assert scores[..i + 1][..i] == scores[..i];
      sumX := sumX + i;
      sumY := sumY + scores[i];
      sumXY := sumXY + i * scores[i];
      sumX2 := sumX2 + i * i;
    }
    assert scores[..n] == scores;
    DenominatorPositive(n);
    var slope := (n * sumXY - sumX * sumY) as real / (n * sumX2 - sumX * sumX) as real;
    if Abs(slope) < DeadBand {
      return Stable;
    }
    t := if slope > 0.0 then Improving else Declining;
    assert t == ClassifySlope(slope);
  }

  lemma ConstantIsStable(s: seq<int>, c: int)
    requires forall i :: 0 <= i < |s| ==> s[i] == c
    ensures Classify(s) == Stable
  {
    var zeros := seq(|s|, i => 0);
    assert Shift(zeros, c) == s by {
      ShiftPointwise(zeros, c);
    }
    ZerosNumerator(|s|);
    ShiftInvariant(zeros, c);
    if |s| >= 2 { ClassifyBySign(zeros); DenominatorPositive(|s|); }
  }

  lemma {:induction false} ShiftPointwise(s: seq<int>, c: int)
    ensures forall i :: 0 <= i < |s| ==> Shift(s, c)[i] == s[i] + c
  {
    if s != [] {
      ShiftPointwise(s[..|s| - 1], c);
    }
  }

  lemma {:induction false} ZerosNumerator(n: nat)
    ensures Sum(seq(n, i => 0)) == 0 && SumXY(seq(n, i => 0)) == 0
  {
    if n > 0 {
      assert seq(n, i => 0)[..n - 1] == seq(n - 1, i => 0);
      ZerosNumerator(n - 1);
    }
  }

  lemma ExampleRising()
    ensures Classify([1, 2, 3, 4, 5]) == Improving
  {
    var s := [1, 2, 3, 4, 5];
    assert s[..4] == [1, 2, 3, 4] && [1, 2, 3, 4][..3] == [1, 2, 3];
    assert [1, 2, 3][..2] == [1, 2] && [1, 2][..1] == [1] && [1][..0] == [];
    assert SumXY([1]) == 0 && SumXY([1, 2]) == 2 && SumXY([1, 2, 3]) == 8 && SumXY([1, 2, 3, 4]) == 20;
    assert SumXY(s) == 40;
    assert Sum([1]) == 1 && Sum([1, 2]) == 3 && Sum([1, 2, 3]) == 6 && Sum([1, 2, 3, 4]) == 10;
    assert Sum(s) == 15;
    assert SumX(5) == 10 && SumX2(5) == 30;
    ClassifyBySign(s);
  }

  lemma ExampleFalling()
    ensures Classify([5, 4, 3, 2, 1]) == Declining
  {
    var s := [5, 4, 3, 2, 1];
    assert s[..4] == [5, 4, 3, 2] && [5, 4, 3, 2][..3] == [5, 4, 3];
    assert [5, 4, 3][..2] == [5, 4] && [5, 4][..1] == [5] && [5][..0] == [];
    assert SumXY([5]) == 0 && SumXY([5, 4]) == 4 && SumXY([5, 4, 3]) == 10 && SumXY([5, 4, 3, 2]) == 16;
    assert SumXY(s) == 20;
    assert Sum([5]) == 5 && Sum([5, 4]) == 9 && Sum([5, 4, 3]) == 12 && Sum([5, 4, 3, 2]) == 14;
    assert Sum(s) == 15;
    assert SumX(5) == 10 && SumX2(5) == 30;
    ClassifyBySign(s);
  }

  lemma ExampleFlat()
    ensures Classify([3, 3, 3, 3]) == Stable
    ensures Classify([3]) == Stable
  {
    ConstantIsStable([3, 3, 3, 3], 3);
  }
}
