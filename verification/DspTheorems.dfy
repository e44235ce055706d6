/** End-to-end statements about SignalProcessor::process, for every buffer of 2^m samples. */
module SignalTheorems {
  import opened Rings
  import opened BitReversal
  import opened Fourier
  import opened DftLaws
  import opened ComplexNumbers
  import opened SignalProcessing

  // ---------------------------------------------------------------- the result is determined by the samples

  lemma SpectrumUnique(m: nat, X: seq<Complex>, a: seq<real>, b: seq<real>)
    requires IsHalfSpectrum(m, X, a) && IsHalfSpectrum(m, X, b)
    ensures a == b
  {
    forall i | 0 <= i < |a|
      ensures a[i] == b[i]
    {
      assert BinOf(m, X[i], a[i]) && BinOf(m, X[i], b[i]);
      BinUnique(m, X[i], a[i], b[i]);
    }
  }

  lemma BinUnique(m: nat, z: Complex, a: real, b: real)
    requires BinOf(m, z, a) && BinOf(m, z, b)
    ensures a == b
  {
    var n := Pow2(m) as real;
    MagnitudeUnique(a * n, b * n);
    assert (a - b) * n == 0.0;
  }

  lemma DetectionUnique(x: seq<real>, d: bool, p: real, e: bool, q: real)
    requires |x| > 0 && IsDetection(x, d, p) && IsDetection(x, e, q)
    ensures d == e && p == q
  {
  }

  /** Two results for the same samples agree: `IsResult` leaves the program no freedom. */
  lemma ResultUnique(R: Ring<Complex>, roots: seq<Complex>, m: nat, x: seq<real>, d: bool, p: real, e: bool, q: real)
    requires IsResult(R, roots, m, x, d, p) && IsResult(R, roots, m, x, e, q)
    ensures d == e && p == q
  {
    var a :| IsSpectrum(R, roots, m, Filtered(x), a) && |a| > 0 && IsDetection(a, d, p);
    var b :| IsSpectrum(R, roots, m, Filtered(x), b) && |b| > 0 && IsDetection(b, e, q);
    SpectrumUnique(m, Dft(R, roots[m], Lift(Filtered(x))), a, b);
    DetectionUnique(a, d, p, e, q);
  }

  /** Whatever smooths the samples and is their spectrum decides the result: the peak is the largest bin, and a
      target is reported exactly if n / 2 times the peak exceeds four times the sum of the bins. */
  lemma ResultMeaning(R: Ring<Complex>, roots: seq<Complex>, m: nat, x: seq<real>, y: seq<real>, s: seq<real>,
                      d: bool, p: real)
    requires IsResult(R, roots, m, x, d, p)
    requires IsSmoothed(x, y) && IsSpectrum(R, roots, m, y, s)
    ensures p in s && forall i :: 0 <= i < |s| ==> s[i] <= p
    ensures d <==> |s| as real * p > 4.0 * SumTo(s, |s|)
  {
    assert y == Filtered(x) by {
      SmoothedIff(x, y);
    }
    var a :| IsSpectrum(R, roots, m, y, a) && |a| > 0 && IsDetection(a, d, p);
    SpectrumUnique(m, Dft(R, roots[m], Lift(y)), a, s);
    PeakMeaning(m, Dft(R, roots[m], Lift(y)), s, d, p);
  }

  lemma PeakMeaning(m: nat, X: seq<Complex>, s: seq<real>, d: bool, p: real)
    requires IsHalfSpectrum(m, X, s) && |s| > 0 && IsDetection(s, d, p)
    ensures p in s && forall i :: 0 <= i < |s| ==> s[i] <= p
    ensures d <==> |s| as real * p > 4.0 * SumTo(s, |s|)
  {
    SpectrumPeak(m, X, s, d, p);
    ThresholdOfSum(|s| as real, SumTo(s, |s|), p);
  }

  lemma SpectrumPeak(m: nat, X: seq<Complex>, s: seq<real>, d: bool, p: real)
    requires IsHalfSpectrum(m, X, s) && |s| > 0 && IsDetection(s, d, p)
    ensures p in s
  {
    assert BinOf(m, X[0], s[0]);
    if p == 0.0 {
      assert s[0] == 0.0;
    }
  }

  // ---------------------------------------------------------------- scaling

  lemma WindowTimes(c: real, x: seq<real>, i: nat)
    requires i < |x|
    ensures Window(Times(c, x), i) == Times(c, Window(x, i))
  {
    var u, v := Window(Times(c, x), i), Times(c, Window(x, i));
    var lo := if i > 0 then i - 1 else 0;
    forall j | 0 <= j < |u|
      ensures u[j] == v[j]
    {
      assert u[j] == Times(c, x)[lo + j] && Window(x, i)[j] == x[lo + j];
    }
  }

  lemma FilteredTimes(c: real, x: seq<real>)
    ensures Filtered(Times(c, x)) == Times(c, Filtered(x))
  {
    forall i | 0 <= i < |x|
      ensures Mean(Window(Times(c, x), i)) == c * Mean(Window(x, i))
    {
      WindowTimes(c, x, i);
      MeanTimes(c, Window(x, i));
    }
    assert forall i :: 0 <= i < |x| ==> Filtered(Times(c, x))[i] == Times(c, Filtered(x))[i];
  }

  lemma LiftTimes(R: Ring<Complex>, c: real, x: seq<real>)
    requires IsComplexField(R)
    ensures Lift(Times(c, x)) == Scaled(R, Complex(c, 0.0), Lift(x))
  {
    forall i | 0 <= i < |x|
      ensures Lift(Times(c, x))[i] == Scaled(R, Complex(c, 0.0), Lift(x))[i]
    {
      assert ActsAs(R, Complex(c, 0.0), Complex(x[i], 0.0));
    }
  }

  lemma NormTimes(c: real, z: Complex)
    ensures Norm2(Mul(Complex(c, 0.0), z)) == c * c * Norm2(z)
  {
    assert (c * z.re) * (c * z.re) == c * c * (z.re * z.re);
    assert (c * z.im) * (c * z.im) == c * c * (z.im * z.im);
  }

  lemma MagnitudeTimes(c: real, r: real, z: Complex)
    requires c > 0.0 && IsMagnitude(r, z)
    ensures IsMagnitude(c * r, Mul(Complex(c, 0.0), z))
  {
    NormTimes(c, z);
    assert (c * r) * (c * r) == c * c * (r * r);
    if r > 0.0 {
      PositiveProduct(c, r);
    }
  }

  lemma BinTimes(R: Ring<Complex>, m: nat, c: real, z: Complex, s: real)
    requires IsComplexField(R) && c > 0.0 && BinOf(m, z, s)
    ensures BinOf(m, R.mul(Complex(c, 0.0), z), c * s)
  {
    var n := Pow2(m) as real;
    assert ActsAs(R, Complex(c, 0.0), z);
    MagnitudeTimes(c, s * n, z);
    assert c * (s * n) == c * s * n;
    if s > 0.0 {
      PositiveProduct(c, s);
    }
  }

  lemma HalfTimes(R: Ring<Complex>, m: nat, c: real, X: seq<Complex>, s: seq<real>)
    requires IsComplexField(R) && c > 0.0 && IsHalfSpectrum(m, X, s)
    ensures IsHalfSpectrum(m, Scaled(R, Complex(c, 0.0), X), Times(c, s))
  {
    var Y := Scaled(R, Complex(c, 0.0), X);
    forall i | 0 <= i < |s|
      ensures BinOf(m, Y[i], Times(c, s)[i])
    {
      assert BinOf(m, X[i], s[i]);
      BinTimes(R, m, c, X[i], s[i]);
    }
  }

  lemma SpectrumTimes(R: Ring<Complex>, roots: seq<Complex>, m: nat, c: real, x: seq<real>, s: seq<real>)
    requires IsComplexField(R) && c > 0.0
    requires IsSpectrum(R, roots, m, x, s)
    ensures IsSpectrum(R, roots, m, Times(c, x), Times(c, s))
  {
    ComplexIsRing(R);
    LiftTimes(R, c, x);
    ScaledDft(R, roots[m], Complex(c, 0.0), Lift(x));
    HalfTimes(R, m, c, Dft(R, roots[m], Lift(x)), s);
  }

  lemma OrderTimes(c: real, a: real, b: real)
    requires c > 0.0
    ensures a < b <==> c * a < c * b
    ensures a <= b <==> c * a <= c * b
  {
    if a < b {
      PositiveProduct(c, b - a);
      assert c * (b - a) == c * b - c * a;
    } else if b < a {
      PositiveProduct(c, a - b);
      assert c * (a - b) == c * a - c * b;
    }
  }

  lemma ThresholdTimes(c: real, s: seq<real>, p: real)
    requires c > 0.0 && |s| > 0
    ensures p > DETECTION_FACTOR * Mean(s) <==> c * p > DETECTION_FACTOR * Mean(Times(c, s))
  {
    MeanTimes(c, s);
    var mean := Mean(s);
    OrderTimes(c, DETECTION_FACTOR * mean, p);
    assert c * (DETECTION_FACTOR * mean) == DETECTION_FACTOR * (c * mean);
  }

  lemma DetectionTimes(c: real, s: seq<real>, d: bool, p: real)
    requires c > 0.0 && |s| > 0 && IsDetection(s, d, p)
    ensures IsDetection(Times(c, s), d, c * p)
  {
    var y := Times(c, s);
    forall i | 0 <= i < |y|
      ensures y[i] <= c * p
    {
      OrderTimes(c, s[i], p);
    }
    OrderTimes(c, 0.0, p);
    if p in s {
      var i :| 0 <= i < |s| && s[i] == p;
      assert y[i] == c * p;
    }
    ThresholdTimes(c, s, p);
  }

  /** Scaling every sample by c > 0 keeps the detection flag and multiplies the peak by c. */
  lemma ProcessScales(R: Ring<Complex>, roots: seq<Complex>, m: nat, c: real, x: seq<real>, d: bool, p: real)
    requires IsComplexField(R) && c > 0.0
    requires IsResult(R, roots, m, x, d, p)
    ensures IsResult(R, roots, m, Times(c, x), d, c * p)
  {
    var s :| IsSpectrum(R, roots, m, Filtered(x), s) && |s| > 0 && IsDetection(s, d, p);
    FilteredTimes(c, x);
    SpectrumTimes(R, roots, m, c, Filtered(x), s);
    DetectionTimes(c, s, d, p);
    assert IsSpectrum(R, roots, m, Filtered(Times(c, x)), Times(c, s));
  }

  // ---------------------------------------------------------------- constant buffers

  lemma {:induction false} SumConstant(v: real, n: nat, count: nat)
    requires count <= n
    ensures SumTo(Constant(v, n), count) == count as real * v
  {
    if count != 0 {
      SumConstant(v, n, count - 1);
      assert count as real * v == (count - 1) as real * v + v;
    }
  }

  lemma ConstantMean(v: real, n: nat)
    requires n > 0
    ensures Mean(Constant(v, n)) == v
  {
    SumConstant(v, n, n);
    assert n as real * v / n as real == v;
  }

  lemma FilteredConstant(v: real, n: nat)
    ensures Filtered(Constant(v, n)) == Constant(v, n)
  {
    forall i | 0 <= i < n
      ensures Filtered(Constant(v, n))[i] == v
    {
      var w := Window(Constant(v, n), i);
      ConstantMean(v, |w|);
      assert w == Constant(v, |w|);
    }
  }

  /** n times v for n == 2^s, by doubling. */
  function Whole(v: real, s: nat): real {
    if s == 0 then v else Whole(v, s - 1) + Whole(v, s - 1)
  }

  lemma {:induction false} WholeIsProduct(v: real, s: nat)
    ensures Whole(v, s) == Pow2(s) as real * v
  {
    if s == 0 {
      assert Pow2(0) as real == 1.0;
    } else {
      WholeIsProduct(v, s - 1);
      var a := Pow2(s - 1) as real;
      assert Pow2(s) as real == a + a;
      assert (a + a) * v == a * v + a * v;
    }
  }

  lemma {:induction false} DoubledComplex(R: Ring<Complex>, v: real, s: nat)
    requires IsComplexField(R)
    ensures Doubled(R, Complex(v, 0.0), s) == Complex(Whole(v, s), 0.0)
  {
    if s != 0 {
      DoubledComplex(R, v, s - 1);
      var h := Complex(Whole(v, s - 1), 0.0);
      assert ActsAs(R, h, h);
    }
  }

  function Abs(v: real): real {
    if v < 0.0 then -v else v
  }

  function RealImpulse(p: real, n: nat): (x: seq<Complex>)
    ensures |x| == n
  {
    seq(n, i => Complex(if i == 0 then p else 0.0, 0.0))
  }

  lemma ZeroOf(R: Ring<Complex>)
    requires IsComplexField(R)
    ensures R.zero == Complex(0.0, 0.0)
  {
    assert ActsAs(R, R.zero, R.zero);
  }

  lemma ImpulseIsReal(R: Ring<Complex>, p: real, n: nat)
    requires IsComplexField(R)
    ensures Impulse(R, Complex(p, 0.0), n) == RealImpulse(p, n)
  {
    ZeroOf(R);
  }

  lemma ConstantBins(R: Ring<Complex>, roots: seq<Complex>, m: nat, v: real)
    requires IsComplexField(R) && RootFamily(R, roots, m)
    ensures Dft(R, roots[m], Lift(Constant(v, Pow2(m)))) == RealImpulse(Whole(v, m), Pow2(m))
  {
    assert Lift(Constant(v, Pow2(m))) == Constant(Complex(v, 0.0), Pow2(m));
    ComplexIsRing(R);
    ConstantDft(R, roots, m, Complex(v, 0.0));
    DoubledComplex(R, v, m);
    ImpulseIsReal(R, Whole(v, m), Pow2(m));
  }

  /** The half spectrum of a constant buffer: its absolute value in bin 0 and nothing elsewhere. */
  lemma ConstantSpectrum(R: Ring<Complex>, roots: seq<Complex>, m: nat, v: real, s: seq<real>)
    requires IsComplexField(R) && RootFamily(R, roots, m)
    requires IsSpectrum(R, roots, m, Constant(v, Pow2(m)), s)
    ensures forall i :: 0 <= i < |s| ==> s[i] == if i == 0 then Abs(v) else 0.0
  {
    ConstantBins(R, roots, m, v);
    SpectrumOfImpulse(m, v, s);
  }

  lemma SpectrumOfImpulse(m: nat, v: real, s: seq<real>)
    requires IsHalfSpectrum(m, RealImpulse(Whole(v, m), Pow2(m)), s)
    ensures forall i :: 0 <= i < |s| ==> s[i] == if i == 0 then Abs(v) else 0.0
  {
    var X := RealImpulse(Whole(v, m), Pow2(m));
    forall i | 0 <= i < |s|
      ensures s[i] == if i == 0 then Abs(v) else 0.0
    {
      assert BinOf(m, X[i], s[i]);
      if i == 0 {
        BinOfConstant(m, v, s[i]);
      } else {
        BinOfZero(m, s[i]);
      }
    }
  }

  lemma BinOfZero(m: nat, s: real)
    requires BinOf(m, Complex(0.0, 0.0), s)
    ensures s == 0.0
  {
    assert BinOf(m, Complex(0.0, 0.0), 0.0);
    BinUnique(m, Complex(0.0, 0.0), s, 0.0);
  }

  lemma AbsBin(m: nat, v: real)
    ensures BinOf(m, Complex(Whole(v, m), 0.0), Abs(v))
  {
    WholeIsProduct(v, m);
    var a, n := Abs(v), Pow2(m) as real;
    var p := n * v;
    assert a * n == if v < 0.0 then -p else p;
    assert (-p) * (-p) == p * p;
    if a > 0.0 {
      PositiveProduct(a, n);
    }
  }

  lemma BinOfConstant(m: nat, v: real, s: real)
    requires BinOf(m, Complex(Whole(v, m), 0.0), s)
    ensures s == Abs(v)
  {
    AbsBin(m, v);
    BinUnique(m, Complex(Whole(v, m), 0.0), s, Abs(v));
  }

  lemma {:induction false} ImpulseSum(x: seq<real>, a: real, count: nat)
    requires 1 <= count <= |x|
    requires forall i :: 0 <= i < |x| ==> x[i] == if i == 0 then a else 0.0
    ensures SumTo(x, count) == a
  {
    if count == 1 {
      assert SumTo(x, 1) == SumTo(x, 0) + x[0];
    } else {
      ImpulseSum(x, a, count - 1);
    }
  }

  /** A constant buffer of value v is reported with peak |v|, and as a target exactly when v is non-zero
      and there are at least 16 samples. */
  lemma ProcessConstant(R: Ring<Complex>, roots: seq<Complex>, m: nat, v: real, d: bool, p: real)
    requires IsComplexField(R) && RootFamily(R, roots, m)
    requires IsResult(R, roots, m, Constant(v, Pow2(m)), d, p)
    ensures p == Abs(v)
    ensures d <==> v != 0.0 && Pow2(m) >= 16
  {
    var x := Constant(v, Pow2(m));
    var s :| IsSpectrum(R, roots, m, Filtered(x), s) && |s| > 0 && IsDetection(s, d, p);
    FilteredConstant(v, Pow2(m));
    ConstantSpectrum(R, roots, m, v, s);
    ImpulseSum(s, Abs(v), |s|);
    assert s[0] == Abs(v);
    ImpulseThreshold(Abs(v), |s|);
    EvenPow2(m);
  }

  lemma EvenPow2(m: nat)
    ensures m >= 4 ==> Pow2(m) >= 16
    ensures m < 4 ==> Pow2(m) <= 8
  {
    if m >= 4 {
      assert Pow2(m) == 2 * Pow2(m - 1) && Pow2(m - 1) == 2 * Pow2(m - 2);
      assert Pow2(m - 2) == 2 * Pow2(m - 3) && Pow2(m - 3) == 2 * Pow2(m - 4);
    }
  }

  lemma ImpulseThreshold(a: real, h: nat)
    requires a >= 0.0 && h > 0
    ensures a > DETECTION_FACTOR * (a / h as real) <==> a > 0.0 && h > 4
  {
    var q := a / h as real;
    assert q * h as real == a;
    if a > 0.0 {
      assert q > 0.0;
      OrderTimes(q, 4.0, h as real);
      assert a == q * h as real;
    } else {
      assert q == 0.0;
    }
  }
}
