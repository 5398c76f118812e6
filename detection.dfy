/** The hybrid anomaly rule `TransactionMonitor._is_anomaly` and the baseline
    helper `_get_mean`, as pure functions of one metric's history snapshot. */
module Detection {
  import opened RealFacts
  import opened Stats

  /** The tracked transaction statuses. */
  datatype Metric = Failed | Denied | Reversed

  /** Static zero-tolerance ceiling for `failed`. */
  const StaticCeiling: int := 5
  /** Fewer samples than this: an adaptive metric is in its cold start. */
  const MinHistory: nat := 10
  /** Absolute margin over the mean used when the history has no variance. */
  const FlatMargin: int := 5

  /** `_get_mean`: the mean of the history, 0 when it is empty. */
  function GetMean(history: seq<int>): real
  {
    if |history| == 0 then 0.0 else Mean(history)
  }

  /** The baseline is 0 for an empty history and otherwise the value whose
      `n`-fold is the history's total. */
  lemma GetMeanBaseline(history: seq<int>)
    ensures |history| == 0 ==> GetMean(history) == 0.0
    ensures |history| > 0 ==> GetMean(history) * (|history| as real) == Sum(history) as real
  {
    if |history| > 0 {
      MeanTimesCount(history);
    }
  }

  /** `n` times the deviation of `value` from the mean of `history`, `n == |history|`. */
  function ScaledDeviation(value: int, history: seq<int>): int
  {
    |history| * value - Sum(history)
  }

  lemma ScaledDeviationIsDeviation(value: int, history: seq<int>)
    requires |history| > 0
    ensures ScaledDeviation(value, history) as real
      == (|history| as real) * (value as real - Mean(history))
  {
    MeanTimesCount(history);
    IntProductAsReal(|history|, value);
  }

  /** The one-sided z-test `(value - mean) / std > sigma` with the square root and
      the denominators cleared: `dev` is `n` times the deviation from the mean and
      `disp` is `n^3` times the variance `std * std` (see `ZScoreExceedsIsZAbove`). */
  function ZScoreExceeds(dev: int, n: nat, disp: int, sigma: real): bool
  {
    ClearedAbove(dev as real, (n * dev * dev) as real, disp as real, sigma)
  }

  /** The cleared test over reals: `lhs` stands for `n * dev * dev`. */
  predicate ClearedAbove(dev: real, lhs: real, disp: real, sigma: real)
  {
    if sigma >= 0.0 then dev > 0.0 && lhs > sigma * sigma * disp
    else dev >= 0.0 || lhs < sigma * sigma * disp
  }

  /** `_is_anomaly(metric, value)` judged against `history`, the metric's
      rolling window before `value` is appended, with `threshold_sigma == sigma`.
      The adaptive branch is written over exact integers: `Dispersion(history) == 0`
      is `std == 0` and `dev > 5 * n` is `value > mean + 5` (see `ZeroStdRule`);
      the last line is the z-score test (see `ZScoreRule`). */
  function IsAnomaly(metric: Metric, value: int, history: seq<int>, sigma: real): bool
  {
    if metric == Failed then value > StaticCeiling
    else if |history| < MinHistory then false
    else
      var n := |history|;
      var dev := ScaledDeviation(value, history);
      var disp := Dispersion(history);
      if disp == 0 then dev > FlatMargin * n
      else ZScoreExceeds(dev, n, disp, sigma)
  }

  /** `n`-fold deviation above `n * 5` is a value more than 5 above the mean. */
  lemma MarginIsAboveMean(value: int, history: seq<int>)
    requires |history| > 0
    ensures ScaledDeviation(value, history) > FlatMargin * |history|
        <==> value as real > Mean(history) + 5.0
  {
    var n := |history| as real;
    ScaledDeviationIsDeviation(value, history);
    IntProductAsReal(FlatMargin, |history|);
    ScaleLess(5.0, value as real - Mean(history), n);
    assert (FlatMargin * |history|) as real == n * 5.0;
  }

  /** The square-root-free test agrees with the z-score for every positive
      standard deviation `std` of the history. */
  lemma ZScoreExceedsIsZAbove(value: int, history: seq<int>, sigma: real, std: real)
    requires |history| > 0
    requires std > 0.0 && std * std == Variance(history)
    ensures ZScoreExceeds(ScaledDeviation(value, history), |history|, Dispersion(history), sigma)
        <==> (value as real - Mean(history)) / std > sigma
  {
    ZTestOverSums(|history|, Sum(history), Dispersion(history), value, Mean(history),
      Variance(history), std, sigma);
  }

  /** The same agreement over plain numbers: `mean` is `sum / n` and the
      variance `v == std * std` is `disp / n^3`. */
  lemma ZTestOverSums(n: nat, sum: int, disp: int, value: int, mean: real, v: real,
                      std: real, sigma: real)
    requires n > 0 && mean == (sum as real) / (n as real)
    requires v == (disp as real) / ((n * n * n) as real)
    requires std > 0.0 && std * std == v
    ensures ZScoreExceeds(n * value - sum, n, disp, sigma) <==> (value as real - mean) / std > sigma
  {
    var nr := n as real;
    DivMul(sum as real, nr);
    IntProductAsReal(n, value);
    assert (n * value - sum) as real == nr * (value as real - mean);
    IntProductAsReal(n * n, n);
    IntProductAsReal(n, n);
    assert n * n * n > 0;
    DivMul(disp as real, (n * n * n) as real);
    ZTestCleared(n, n * value - sum, disp, value as real - mean, v, std, sigma);
  }

  /** The agreement once `dev` is `n` times the deviation `d` and `disp` is
      `n^3` times the variance `v`. */
  lemma ZTestCleared(n: nat, dev: int, disp: int, d: real, v: real, std: real, sigma: real)
    requires n > 0 && std > 0.0 && std * std == v
    requires dev as real == (n as real) * d
    requires disp as real == v * (((n as real) * (n as real)) * (n as real))
    ensures ZScoreExceeds(dev, n, disp, sigma) <==> d / std > sigma
  {
    var nr := n as real;
    TripleProductAsReal(n, dev);
    ClearedZTest(nr, d, dev as real, (n * dev * dev) as real, disp as real, v, (nr * nr) * nr, sigma);
    SquaredZTest(d, std, v, sigma);
  }

  lemma TripleProductAsReal(n: int, dev: int)
    ensures (n * dev * dev) as real == ((n as real) * (dev as real)) * (dev as real)
  {
    IntProductAsReal(n * dev, dev);
    IntProductAsReal(n, dev);
  }

  /** The z-test over plain reals: `dev == n * d` is the scaled deviation, `lhs`
      its `n`-fold square and `disp == v * n^3` the scaled variance. */
  lemma ClearedZTest(n: real, d: real, dev: real, lhs: real, disp: real, v: real, cube: real,
                     sigma: real)
    requires n > 0.0 && dev == n * d && lhs == (n * dev) * dev
    requires cube == (n * n) * n && disp == v * cube
    ensures ClearedAbove(dev, lhs, disp, sigma) == SquaredZAbove(d, v, sigma)
  {
    ClearedSquares(n, d, dev, lhs, disp, v, cube, sigma * sigma);
    SameSign(n, d, dev);
  }

  lemma SameSign(n: real, d: real, dev: real)
    requires n > 0.0 && dev == n * d
    ensures dev > 0.0 <==> d > 0.0
    ensures dev >= 0.0 <==> d >= 0.0
  {
    if d > 0.0 { MulLess(0.0, d, n); }
    if d < 0.0 { MulLess(d, 0.0, n); }
  }

  /** Clearing the common factor `n^3` from both sides of the squared test. */
  lemma ClearedSquares(n: real, d: real, dev: real, lhs: real, disp: real, v: real, cube: real,
                       s2: real)
    requires n > 0.0 && dev == n * d && lhs == (n * dev) * dev
    requires cube == (n * n) * n && disp == v * cube
    ensures lhs > s2 * disp <==> d * d > s2 * v
    ensures lhs < s2 * disp <==> d * d < s2 * v
  {
    assert lhs == cube * (d * d);
    assert s2 * disp == cube * (s2 * v);
    ProdPositive(n, n, n * n);
    ProdPositive(n * n, n, cube);
    ScaleLess(d * d, s2 * v, cube);
    ScaleLess(s2 * v, d * d, cube);
  }

  /** `d / std > sigma` for `std * std == v`, without the root: signs and squares. */
  predicate SquaredZAbove(d: real, v: real, sigma: real)
  {
    if sigma >= 0.0 then d > 0.0 && d * d > sigma * sigma * v
    else d >= 0.0 || d * d < sigma * sigma * v
  }

  lemma SquaredZTest(d: real, std: real, v: real, sigma: real)
    requires std > 0.0 && std * std == v
    ensures SquaredZAbove(d, v, sigma) <==> d / std > sigma
  {
    DivAbove(d, std, sigma);
    ScaledSquare(sigma, std, v);
    assert sigma * std == std * sigma;
    if sigma >= 0.0 {
      MulLeq(0.0, sigma, std);
      AboveNonNeg(d, sigma * std);
    } else {
      MulLess(sigma, 0.0, std);
      AboveNeg(d, sigma * std);
    }
  }

  /** `failed` fires exactly above the static ceiling, whatever its history. */
  lemma StaticRule(value: int, history: seq<int>, sigma: real)
    ensures IsAnomaly(Failed, value, history, sigma) <==> value > 5
  {
  }

  /** An adaptive metric never fires during its cold start. */
  lemma ColdStart(metric: Metric, value: int, history: seq<int>, sigma: real)
    requires metric != Failed && |history| < 10
    ensures !IsAnomaly(metric, value, history, sigma)
  {
  }

  /** The zero-variance branch is taken exactly for flat histories, and then
      compares against the mean plus the fixed margin. */
  lemma ZeroStdRule(metric: Metric, value: int, history: seq<int>, sigma: real)
    requires metric != Failed && |history| >= 10 && Variance(history) == 0.0
    ensures Flat(history)
    ensures IsAnomaly(metric, value, history, sigma) <==> value as real > Mean(history) + 5.0
  {
    VarianceZeroIffFlat(history);
    DispersionZeroIffFlat(history);
    MarginIsAboveMean(value, history);
  }

  /** With a warm, perfectly flat history (std == 0) an adaptive metric fires
      exactly when the value exceeds that common value by more than 5. */
  lemma FlatRule(metric: Metric, value: int, history: seq<int>, sigma: real)
    requires metric != Failed && |history| >= 10 && Flat(history)
    ensures IsAnomaly(metric, value, history, sigma) <==> value > history[0] + 5
  {
    VarianceZeroIffFlat(history);
    ZeroStdRule(metric, value, history, sigma);
    FlatMean(history);
  }

  /** With a warm history and any positive standard deviation `std`, an adaptive
      metric fires exactly when its z-score `(value - mean) / std` exceeds `sigma`. */
  lemma ZScoreRule(metric: Metric, value: int, history: seq<int>, sigma: real, std: real)
    requires metric != Failed && |history| >= 10
    requires std > 0.0 && std * std == Variance(history)
    ensures IsAnomaly(metric, value, history, sigma)
        <==> (value as real - Mean(history)) / std > sigma
  {
    ProdPositive(std, std, Variance(history));
    DispersionZeroIffFlat(history);
    VarianceZeroIffFlat(history);
    ZScoreExceedsIsZAbove(value, history, sigma, std);
  }

  /** A value exactly `sigma` standard deviations above the mean does not fire. */
  lemma BoundaryDoesNotFire(metric: Metric, value: int, history: seq<int>, sigma: real, std: real)
    requires metric != Failed && |history| >= 10
    requires std > 0.0 && std * std == Variance(history)
    requires value as real == Mean(history) + sigma * std
    ensures !IsAnomaly(metric, value, history, sigma)
  {
    ZScoreRule(metric, value, history, sigma, std);
    DivCancel(sigma, std);
    assert value as real - Mean(history) == sigma * std;
  }

  /** With a non-negative threshold, a value at or below the baseline mean never fires
      for an adaptive metric: the test is one-sided. */
  lemma AtOrBelowMeanNeverFires(metric: Metric, value: int, history: seq<int>, sigma: real)
    requires metric != Failed && sigma >= 0.0
    requires value as real <= GetMean(history)
    ensures !IsAnomaly(metric, value, history, sigma)
  {
    if |history| >= MinHistory {
      ScaledDeviationIsDeviation(value, history);
      MulLeq(value as real - Mean(history), 0.0, |history| as real);
      assert ScaledDeviation(value, history) <= 0;
    }
  }

  /** Anything larger than a value that fires also fires. */
  lemma MonotoneInValue(metric: Metric, value: int, larger: int, history: seq<int>, sigma: real)
    requires value <= larger
    requires IsAnomaly(metric, value, history, sigma)
    ensures IsAnomaly(metric, larger, history, sigma)
  {
    if metric != Failed && |history| >= MinHistory {
      var n := |history|;
      MulMono(n, value, larger);
      ZScoreExceedsMono(ScaledDeviation(value, history), ScaledDeviation(larger, history),
        n, Dispersion(history), sigma);
    }
  }

  lemma ZScoreExceedsMono(dev: int, dev': int, n: nat, disp: int, sigma: real)
    requires dev <= dev' && ZScoreExceeds(dev, n, disp, sigma)
    ensures ZScoreExceeds(dev', n, disp, sigma)
  {
    if sigma >= 0.0 {
      SquareMono(dev, dev', n);
    } else if dev' < 0 {
      SquareMono(-dev', -dev, n);
      assert n * (-dev') * (-dev') == n * dev' * dev';
      assert n * (-dev) * (-dev) == n * dev * dev;
    }
  }

  lemma MulMono(n: nat, a: int, b: int)
    requires a <= b
    ensures n * a <= n * b
  {
  }

  lemma SquareMono(a: int, b: int, n: nat)
    requires 0 <= a <= b
    ensures n * a * a <= n * b * b
  {
    assert a * a <= a * b <= b * b;
  }

  /** A warm flat history of ten 5s: 11 fires, 10 does not. */
  lemma FlatFivesExample(metric: Metric, sigma: real)
    requires metric != Failed
    ensures IsAnomaly(metric, 11, seq(10, _ => 5), sigma)
    ensures !IsAnomaly(metric, 10, seq(10, _ => 5), sigma)
  {
    var fives: seq<int> := seq(10, _ => 5);
    FlatRule(metric, 11, fives, sigma);
    FlatRule(metric, 10, fives, sigma);
  }
}
