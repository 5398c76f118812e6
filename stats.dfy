/** Exact statistics over a history of integer counts.
    The monitor takes its baseline from numpy's `mean` and population `std`;
    here both are exact. The squared deviations are kept on integers, scaled
    by the history length `n`: `n * x - Sum` is `n` times the deviation of `x`
    from the mean, so no division happens until `Variance` is formed. */
module Stats {
  import opened RealFacts

  function Sum(s: seq<int>): int
  {
    if s == [] then 0 else s[0] + Sum(s[1..])
  }

  /** Arithmetic mean of a non-empty history (`np.mean`). */
  function Mean(s: seq<int>): real
    requires |s| > 0
  {
    (Sum(s) as real) / (|s| as real)
  }

  /** The mean times the number of samples is the total. */
  lemma MeanTimesCount(s: seq<int>)
    requires |s| > 0
    ensures Mean(s) * (|s| as real) == Sum(s) as real
  {
  }

  /** Sum over `s` of `(n * x - total)^2`. */
  function ScaledSqDev(s: seq<int>, n: int, total: int): (r: int)
    ensures r >= 0
  {
    if s == [] then 0
    else
      var e := n * s[0] - total;
      e * e + ScaledSqDev(s[1..], n, total)
  }

  /** `n^2` times the sum of squared deviations from the mean, that is
      `n^3` times the population variance, where `n == |s|`. */
  function Dispersion(s: seq<int>): int
  {
    ScaledSqDev(s, |s|, Sum(s))
  }

  /** Population variance (the square of `np.std`, ddof = 0). */
  function Variance(s: seq<int>): (r: real)
    requires |s| > 0
    ensures r >= 0.0
  {
    var n := |s|;
    (Dispersion(s) as real) / ((n * n * n) as real)
  }

  /** Sum over `s` of the squared deviations from `m`, over the reals. */
  function SqDev(s: seq<int>, m: real): real
  {
    if s == [] then 0.0 else (s[0] as real - m) * (s[0] as real - m) + SqDev(s[1..], m)
  }

  /** Scaling every deviation by `n` scales the squared deviations by `n^2`. */
  lemma {:induction false} ScaledSqDevScales(s: seq<int>, n: int, total: int, m: real)
    requires m * (n as real) == total as real
    ensures ScaledSqDev(s, n, total) as real == ((n as real) * (n as real)) * SqDev(s, m)
  {
    if s != [] {
      ScaledSqDevScales(s[1..], n, total, m);
      assert ScaledSqDev(s, n, total)
        == (n * s[0] - total) * (n * s[0] - total) + ScaledSqDev(s[1..], n, total);
      assert SqDev(s, m) == (s[0] as real - m) * (s[0] as real - m) + SqDev(s[1..], m);
      ScaledSquareStep(n, s[0], total, m, ScaledSqDev(s[1..], n, total), SqDev(s[1..], m),
        ScaledSqDev(s, n, total), SqDev(s, m));
    }
  }

  /** One step of `ScaledSqDevScales`: adding the term for sample `x` to both sums. */
  lemma ScaledSquareStep(n: int, x: int, total: int, m: real, rest: int, restReal: real,
                         whole: int, wholeReal: real)
    requires m * (n as real) == total as real
    requires rest as real == ((n as real) * (n as real)) * restReal
    requires whole == (n * x - total) * (n * x - total) + rest
    requires wholeReal == (x as real - m) * (x as real - m) + restReal
    ensures whole as real == ((n as real) * (n as real)) * wholeReal
  {
    var nr := n as real;
    var e := n * x - total;
    var d := x as real - m;
    IntProductAsReal(n, x);
    assert e as real == nr * d;
    IntProductAsReal(e, e);
    SquareCongr(e as real, nr * d);
    Regroup(nr, d, nr, d);
    Distrib(nr * nr, d * d, restReal);
  }

  /** `Variance` is the textbook population variance: the mean squared deviation from the mean. */
  lemma VarianceIsMeanSquaredDeviation(s: seq<int>)
    requires |s| > 0
    ensures Variance(s) == SqDev(s, Mean(s)) / (|s| as real)
  {
    DispersionScales(s);
    CubeDivision(|s|, Dispersion(s), SqDev(s, Mean(s)));
  }

  /** `Dispersion` is `n^2` times the sum of squared deviations from the mean. */
  lemma DispersionScales(s: seq<int>)
    requires |s| > 0
    ensures Dispersion(s) as real == ((|s| as real) * (|s| as real)) * SqDev(s, Mean(s))
  {
    MeanTimesCount(s);
    ScaledSqDevScales(s, |s|, Sum(s), Mean(s));
  }

  /** Dividing `n^2 * x` by `n^3` leaves `x / n`. */
  lemma CubeDivision(n: nat, disp: int, x: real)
    requires n > 0
    requires disp as real == ((n as real) * (n as real)) * x
    ensures (disp as real) / ((n * n * n) as real) == x / (n as real)
  {
    var nr := n as real;
    IntProductAsReal(n * n, n);
    IntProductAsReal(n, n);
    assert (n * n * n) as real == (nr * nr) * nr;
    DivScale(x, nr * nr, nr);
  }

  /** Every value of the history is the same. */
  predicate Flat(s: seq<int>)
  {
    forall i :: 0 <= i < |s| ==> s[i] == s[0]
  }

  lemma {:induction false} FlatSum(s: seq<int>)
    requires |s| > 0 && Flat(s)
    ensures Sum(s) == |s| * s[0]
  {
    if |s| > 1 {
      assert Flat(s[1..]) by {
        forall i | 0 <= i < |s[1..]| ensures s[1..][i] == s[1..][0] {
          assert s[1..][i] == s[i + 1];
        }
      }
      FlatSum(s[1..]);
    }
  }

  /** The mean of a flat history is its common value. */
  lemma FlatMean(s: seq<int>)
    requires |s| > 0 && Flat(s)
    ensures Mean(s) == s[0] as real
  {
    FlatSum(s);
    MeanTimesCount(s);
    var n := |s| as real;
    assert (Sum(s) as real) == (s[0] as real) * n;
  }

  /** The scaled squared deviations vanish exactly when every `n * x` equals `total`. */
  lemma {:induction false} ScaledSqDevZero(s: seq<int>, n: int, total: int)
    ensures ScaledSqDev(s, n, total) == 0 <==> forall i :: 0 <= i < |s| ==> n * s[i] == total
  {
    if s != [] {
      ScaledSqDevZero(s[1..], n, total);
      var e := n * s[0] - total;
      assert e == 0 || e * e > 0;
      if forall i :: 0 <= i < |s| ==> n * s[i] == total {
        forall i | 0 <= i < |s[1..]| ensures n * s[1..][i] == total {
          assert s[1..][i] == s[i + 1];
        }
      }
      if ScaledSqDev(s, n, total) == 0 {
        forall i | 0 <= i < |s| ensures n * s[i] == total {
          if i > 0 {
            assert s[i] == s[1..][i - 1];
          }
        }
      }
    }
  }

  lemma MulCancelInt(a: int, b: int, n: int)
    requires n > 0 && n * a == n * b
    ensures a == b
  {
  }

  /** A history has no dispersion exactly when it is flat. */
  lemma DispersionZeroIffFlat(s: seq<int>)
    requires |s| > 0
    ensures Dispersion(s) == 0 <==> Flat(s)
  {
    var n := |s|;
    ScaledSqDevZero(s, n, Sum(s));
    if Flat(s) {
      FlatSum(s);
    }
    if Dispersion(s) == 0 {
      forall i | 0 <= i < n ensures s[i] == s[0] {
        MulCancelInt(s[i], s[0], n);
      }
    }
  }

  /** Zero variance (so zero standard deviation) means a perfectly flat history, and conversely. */
  lemma VarianceZeroIffFlat(s: seq<int>)
    requires |s| > 0
    ensures Variance(s) == 0.0 <==> Flat(s)
  {
    var n := |s|;
    var cube := (n * n * n) as real;
    assert n * n * n > 0;
    DispersionZeroIffFlat(s);
    if Dispersion(s) > 0 {
      DivAbove(Dispersion(s) as real, cube, 0.0);
    }
  }
}
