/** The consistency score of the metrics collector: computed in one pass over the
    ring of recent rates, specified by the two-pass variance. What the source
    calls the standard deviation is the variance itself. */
module Consistency {
  import opened Arithmetic
  import opened Folds
  import opened EpsRing

  // ---- the specification, in two passes ----

  function Positives(s: seq<int>): seq<int> {
    if s == [] then [] else Positives(s[..|s| - 1]) + if s[|s| - 1] > 0 then [s[|s| - 1]] else []
  }

  function Sum(s: seq<int>): real {
    if s == [] then 0.0 else Sum(s[..|s| - 1]) + s[|s| - 1] as real
  }

  function SquaredDeviations(s: seq<int>, mean: real): real {
    if s == [] then 0.0 else SquaredDeviations(s[..|s| - 1], mean) + Square(s[|s| - 1] as real - mean)
  }

  function Square(x: real): real { x * x }

  function Mean(s: seq<int>): real
    requires s != []
  {
    Sum(s) / |s| as real
  }

  function Variance(s: seq<int>): real
    requires |s| >= 2
  {
    SquaredDeviations(s, Mean(s)) / (|s| - 1) as real
  }

  /** 100 less the variance of the positive samples as a percentage of their mean,
      but not below zero; 100 when there are fewer than two. */
  function ScoreOf(s: seq<int>): real {
    var p := Positives(s);
    if |p| < 2 || Mean(p) == 0.0 then 100.0 else Percentage(Variance(p), Mean(p))
  }

  function Percentage(variance: real, mean: real): real
    requires mean != 0.0
  {
    var score := 100.0 - variance / mean * 100.0;
    if score < 0.0 then 0.0 else score
  }

  // ---- what one pass accumulates ----

  datatype Moments = Moments(sum: real, squares: real, count: int)

  function AddRate(m: Moments, eps: int): Moments {
    if eps > 0 then Moments(m.sum + eps as real, m.squares + Square(eps as real), m.count + 1) else m
  }

  function MomentsOf(s: seq<int>): Moments {
    Fold(AddRate, Moments(0.0, 0.0, 0), s)
  }

  function SumOfSquares(s: seq<int>): real {
    if s == [] then 0.0 else SumOfSquares(s[..|s| - 1]) + Square(s[|s| - 1] as real)
  }

  lemma {:induction false} MomentsOfPositives(s: seq<int>)
    ensures MomentsOf(s) == Moments(Sum(Positives(s)), SumOfSquares(Positives(s)), |Positives(s)|)
  {
    hide Square;
    if s != [] {
      var n := |s| - 1;
      MomentsOfPositives(s[..n]);
      var p := Positives(s);
      assert MomentsOf(s) == AddRate(MomentsOf(s[..n]), s[n]);
      if s[n] > 0 {
        assert p[..|p| - 1] == Positives(s[..n]) && p[|p| - 1] == s[n];
        assert |p| == |Positives(s[..n])| + 1;
        assert Sum(p) == Sum(Positives(s[..n])) + s[n] as real;
        assert SumOfSquares(p) == SumOfSquares(Positives(s[..n])) + Square(s[n] as real);
      } else { assert p == Positives(s[..n]); }
    }
  }

  lemma SquareOfDifference(x: real, m: real)
    ensures Square(x - m) == Square(x) - 2.0 * (m * x) + m * m
  {
  }

  /** The squared deviations from any point, in terms of the moments. */
  lemma {:induction false} DeviationsFromMoments(s: seq<int>, m: real)
    ensures SquaredDeviations(s, m) == SumOfSquares(s) - 2.0 * (m * Sum(s)) + |s| as real * (m * m)
  {
    hide Square;
    if s != [] {
      var n := |s| - 1;
      DeviationsFromMoments(s[..n], m);
      SquareOfDifference(s[n] as real, m);
      Distribute(m, Sum(s[..n]), s[n] as real);
      Distribute(m * m, n as real, 1.0);
    }
  }

  /** The numerator of one pass is the sum of squared deviations of two passes. */
  lemma OnePassDeviations(s: seq<int>)
    requires s != []
    ensures SumOfSquares(s) - Sum(s) * Mean(s) == SquaredDeviations(s, Mean(s))
  {
    hide Sum, SumOfSquares, SquaredDeviations, Square, Mean;
    DeviationsFromMoments(s, Mean(s));
    MeanTimesCount(s);
    MeanSquared(|s| as real, Mean(s), Sum(s));
  }

  lemma MeanTimesCount(s: seq<int>)
    requires s != []
    ensures |s| as real * Mean(s) == Sum(s)
  {
    hide Sum;
  }

  lemma MeanSquared(n: real, m: real, sum: real)
    requires n * m == sum
    ensures n * (m * m) == m * sum == sum * m
  {
    Associate(n, m, m);
  }

  /** One pass gives exactly the variance of two passes. */
  lemma OnePassVariance(s: seq<int>)
    requires |s| >= 2
    ensures (SumOfSquares(s) - Sum(s) * Mean(s)) / (|s| - 1) as real == Variance(s)
  {
    hide Sum, SumOfSquares, SquaredDeviations, Mean;
    OnePassDeviations(s);
  }

  lemma {:induction false} PositivesArePositive(s: seq<int>)
    ensures forall i | 0 <= i < |Positives(s)| :: Positives(s)[i] > 0 && Positives(s)[i] in s
    ensures forall i | 0 <= i < |s| && s[i] > 0 :: s[i] in Positives(s)
  {
    if s != [] {
      var n := |s| - 1;
      PositivesArePositive(s[..n]);
      assert s == s[..n] + [s[n]];
    }
  }

  lemma {:induction false} SumAtLeastCount(s: seq<int>)
    requires forall i | 0 <= i < |s| :: s[i] > 0
    ensures Sum(s) >= |s| as real
  {
    if s != [] { SumAtLeastCount(s[..|s| - 1]); }
  }

  lemma MeanPositive(s: seq<int>)
    requires s != [] && forall i | 0 <= i < |s| :: s[i] > 0
    ensures Mean(s) > 0.0
  {
    SumAtLeastCount(s);
  }

  /** The squared deviations are never negative, and zero only without deviation. */
  lemma {:induction false} DeviationsVanish(s: seq<int>, m: real)
    ensures SquaredDeviations(s, m) >= 0.0
    ensures SquaredDeviations(s, m) == 0.0 <==> forall i | 0 <= i < |s| :: s[i] as real == m
  {
    if s != [] {
      var n := |s| - 1;
      DeviationsVanish(s[..n], m);
      SquareVanishes(s[n] as real - m);
      assert forall i | 0 <= i < n :: s[..n][i] == s[i];
    }
  }

  lemma SquareVanishes(x: real)
    ensures Square(x) >= 0.0 && (Square(x) == 0.0 <==> x == 0.0)
  {
    ProductVanishes(x, x, Square(x));
  }

  lemma ProductVanishes(x: real, z: real, y: real)
    requires x == z && y == x * z
    ensures y >= 0.0 && (y == 0.0 <==> x == 0.0)
  {
    if x > 0.0 { ProductPositive(x, z, y); } else if x < 0.0 { ProductPositive(-x, -z, y); }
  }

  lemma ProductPositive(x: real, z: real, y: real)
    requires x > 0.0 && z > 0.0 && y == x * z
    ensures y > 0.0
  {
  }

  lemma {:induction false} EqualSum(s: seq<int>, x: int)
    requires forall i | 0 <= i < |s| :: s[i] == x
    ensures Sum(s) == |s| as real * x as real
  {
    if s != [] { EqualSum(s[..|s| - 1], x); }
  }

  /** All samples equal their mean exactly when they equal one another. */
  lemma EqualToMean(s: seq<int>)
    requires s != []
    ensures (forall i | 0 <= i < |s| :: s[i] as real == Mean(s)) <==> (forall i, j | 0 <= i < |s| && 0 <= j < |s| :: s[i] == s[j])
  {
    if forall i, j | 0 <= i < |s| && 0 <= j < |s| :: s[i] == s[j] {
      EqualSum(s, s[0]);
    }
    if forall i | 0 <= i < |s| :: s[i] as real == Mean(s) {
      forall i, j | 0 <= i < |s| && 0 <= j < |s| ensures s[i] == s[j] {
        assert s[i] as real == s[j] as real;
      }
    }
  }

  lemma QuotientSign(x: real, y: real)
    requires x >= 0.0 && y > 0.0
    ensures x / y >= 0.0 && (x / y == 0.0 <==> x == 0.0) && (x / y >= 1.0 <==> x >= y)
  {
    var q := x / y;
    assert q * y == x;
  }

  /** The score is a percentage. With two or more positive samples it is 100
      exactly when they are all equal, and zero exactly when their variance has
      reached their mean. */
  lemma ScoreMeaning(s: seq<int>)
    ensures var p := Positives(s);
            && 0.0 <= ScoreOf(s) <= 100.0
            && (|p| < 2 ==> ScoreOf(s) == 100.0)
            && (|p| >= 2 ==> (ScoreOf(s) == 100.0 <==> forall i, j | 0 <= i < |p| && 0 <= j < |p| :: p[i] == p[j]))
            && (|p| >= 2 ==> (ScoreOf(s) == 0.0 <==> Variance(p) >= Mean(p)))
  {
    var p := Positives(s);
    if |p| >= 2 {
      PositivesArePositive(s);
      MeanPositive(p);
      DeviationsVanish(p, Mean(p));
      EqualToMean(p);
      QuotientSign(SquaredDeviations(p, Mean(p)), (|p| - 1) as real);
      QuotientSign(Variance(p), Mean(p));
      hide Positives, Mean, Variance, SquaredDeviations;
    }
  }

  lemma AddingCommutes()
    ensures Commutes(AddRate)
  {
  }

  /** The same mean, variance and score from what one pass has accumulated. */
  function MomentMean(m: Moments): real
    requires m.count >= 2
  {
    m.sum / m.count as real
  }

  function MomentVariance(m: Moments): real
    requires m.count >= 2
  {
    (m.squares - m.sum * MomentMean(m)) / (m.count - 1) as real
  }

  function ScoreOfMoments(m: Moments): real {
    if m.count < 2 || MomentMean(m) == 0.0 then 100.0 else Percentage(MomentVariance(m), MomentMean(m))
  }

  lemma ScoreFromMoments(s: seq<int>)
    ensures var m := MomentsOf(s);
            && (m.count >= 2 ==> MomentMean(m) > 0.0)
            && ScoreOf(s) == ScoreOfMoments(m)
  {
    hide Positives, Sum, SumOfSquares, SquaredDeviations, MomentsOf, Percentage;
    var p, m := Positives(s), MomentsOf(s);
    MomentsOfPositives(s);
    if |p| >= 2 {
      PositivesArePositive(s);
      MeanPositive(p);
      OnePassVariance(p);
      assert MomentMean(m) == Mean(p) && MomentVariance(m) == Variance(p);
      hide Mean, Variance, MomentMean, MomentVariance;
    }
  }

  /** In between it falls from 100 by the variance as a share of the mean. */
  lemma ScoreBetween(s: seq<int>)
    requires |Positives(s)| >= 2 && Variance(Positives(s)) <= Mean(Positives(s))
    ensures ScoreOf(s) * Mean(Positives(s)) == 100.0 * (Mean(Positives(s)) - Variance(Positives(s)))
  {
    hide Positives, Mean, Variance, Percentage;
    var p := Positives(s);
    PositivesArePositive(s);
    MeanAtLeastOne(p);
    ShareOfMean(Variance(p), Mean(p));
  }

  lemma ShareOfMean(variance: real, mean: real)
    requires mean > 0.0 && variance <= mean
    ensures Percentage(variance, mean) * mean == 100.0 * (mean - variance)
  {
    var share := variance / mean;
    assert share * mean == variance;
    assert share <= 1.0;
    Distribute(mean, 100.0, share * 100.0);
  }

  /** The score does not depend on the order of the samples, so not on where the
      ring's write index stands. */
  lemma ScoreIgnoresOrder(s: seq<int>, t: seq<int>)
    requires multiset(s) == multiset(t)
    ensures ScoreOf(s) == ScoreOf(t)
  {
    AddingCommutes();
    FoldPermutation(AddRate, Moments(0.0, 0.0, 0), s, t);
    ScoreFromMoments(s);
    ScoreFromMoments(t);
  }

  /** The one pass over the slots of the ring. */
  method Accumulate(epsBuffer: Ring) returns (sum: real, sumSquares: real, count: int)
    requires epsBuffer.Valid()
    ensures Moments(sum, sumSquares, count) == MomentsOf(epsBuffer.slots[..])
  {
    sum, sumSquares, count := 0.0, 0.0, 0;
    ghost var all := epsBuffer.slots[..];
    for i := 0 to epsBuffer.slots.Length
      invariant Moments(sum, sumSquares, count) == MomentsOf(all[..i])
    {
      var eps := epsBuffer.slots[i];
      if eps > 0 {
        sum := sum + eps as real;
        sumSquares := sumSquares + eps as real * eps as real;
        count := count + 1;
      }
      FoldNext(AddRate, Moments(0.0, 0.0, 0), all, i);
    }
    assert all[..epsBuffer.slots.Length] == all;
  }

  /** The score: it is the two-pass score of the last samples. */
  method CalculateConsistencyScore(epsBuffer: Ring) returns (score: real)
    requires epsBuffer.Valid()
    ensures score == ScoreOf(Last(epsBuffer.slots.Length, epsBuffer.samples))
    ensures 0.0 <= score <= 100.0
  {
    hide ScoreOf, Positives, Last, MomentsOf, Ring.Valid;
    var sum, sumSquares, count := Accumulate(epsBuffer);
    ghost var all, window := epsBuffer.slots[..], Last(epsBuffer.slots.Length, epsBuffer.samples);
    epsBuffer.HoldsLast();
    ScoreIgnoresOrder(all, window);
    ScoreFromMoments(all);
    ScoreMeaning(window);
    if count < 2 {
      return 100.0;
    }
    var mean := sum / count as real;
    ghost var m := Moments(sum, sumSquares, count);
    assert mean == MomentMean(m);
    var variance := (sumSquares - sum * mean) / (count - 1) as real;
    assert variance == MomentVariance(m);
    hide MomentMean, MomentVariance;
    var stddev := variance;
    var cv := 0.0;
    if mean > 0.0 {
      cv := stddev / mean;
    }
    score := 100.0 - cv * 100.0;
    if score < 0.0 {
      score := 0.0;
    }
  }

  lemma MeanAtLeastOne(s: seq<int>)
    requires s != [] && forall i | 0 <= i < |s| :: s[i] > 0
    ensures Mean(s) >= 1.0
  {
    SumAtLeastCount(s);
    hide Sum;
    QuotientSign(Sum(s), |s| as real);
  }

  lemma PercentagesAgreeIff(x: real, y: real, mean: real)
    requires x >= 0.0 && y >= 0.0 && mean > 0.0
    ensures Percentage(x, mean) == Percentage(y, mean) <==> x == y || (x >= mean && y >= mean)
  {
    QuotientSign(x, mean);
    QuotientSign(y, mean);
    assert x / mean * mean == x && y / mean * mean == y;
  }

  lemma RootFixed(r: real, square: real, mean: real)
    requires r >= 0.0 && square == r * r && mean >= 1.0
    ensures square >= 0.0
    ensures (square == r || (square >= mean && r >= mean)) <==> (r == 0.0 || r == 1.0 || r >= mean)
  {
    if r > 1.0 {
      ScaleStrict(r, 1.0, r);
    } else if 0.0 < r < 1.0 {
      ScaleStrict(r, r, 1.0);
    }
  }

  /** The variance stands where the formula asks for its root. With two positive
      samples or more that makes no difference exactly when the root is zero or
      one, or has reached the mean, where both scores are zero. */
  lemma ScoreUsesRootIff(s: seq<int>, r: real)
    requires |Positives(s)| >= 2 && r >= 0.0 && r * r == Variance(Positives(s))
    ensures Mean(Positives(s)) > 0.0
    ensures ScoreOf(s) == Percentage(r, Mean(Positives(s))) <==> r == 0.0 || r == 1.0 || r >= Mean(Positives(s))
  {
    var p := Positives(s);
    PositivesArePositive(s);
    MeanAtLeastOne(p);
    hide Positives, Mean, Variance, Percentage;
    RootFixed(r, Variance(p), Mean(p));
    PercentagesAgreeIff(Variance(p), r, Mean(p));
  }

  /** So two rates a tenth of a percent above and below a million score zero; the
      root of their variance would be less than 1,415 and the score above 99. */
  lemma SmallSpreadScoresZero(r: real)
    requires 0.0 <= r && r * r == 2_000_000.0
    ensures var p := Positives([999_000, 1_001_000]); |p| == 2 && Variance(p) == r * r
    ensures ScoreOf([999_000, 1_001_000]) == 0.0
    ensures Percentage(r, 1_000_000.0) > 99.0
  {
    var s := [999_000, 1_001_000];
    assert s[..1] == [999_000];
    assert Positives([999_000]) == [999_000] by { assert [999_000][..0] == []; }
    assert Positives(s) == s;
    assert Sum([999_000]) == 999_000.0 by { assert [999_000][..0] == []; }
    assert Mean(s) == 1_000_000.0;
    assert SquaredDeviations([999_000], 1_000_000.0) == 1_000_000.0 * 1.0 by { assert [999_000][..0] == []; }
    ScoreMeaning(s);
    if r >= 1_415.0 { Times(1_415.0, r); }
  }

  lemma Times(x: real, r: real)
    requires 0.0 <= x <= r
    ensures x * x <= r * r
  {
    Scale(x, x, r);
    Scale(r, x, r);
  }
}
