/** The three stages of SignalProcessor::process in exact arithmetic. */
module SignalProcessing {
  import opened Rings
  import opened BitReversal
  import opened Fourier
  import opened Fft
  import opened DftLaws
  import opened ComplexNumbers

  // ---------------------------------------------------------------- sums over samples

  function SumTo(x: seq<real>, count: nat): real
    requires count <= |x|
  {
    if count == 0 then 0.0 else SumTo(x, count - 1) + x[count - 1]
  }

  function Mean(x: seq<real>): real
    requires |x| > 0
  {
    SumTo(x, |x|) / |x| as real
  }

  function Times(c: real, x: seq<real>): (y: seq<real>)
    ensures |y| == |x|
  {
    seq(|x|, i requires 0 <= i < |x| => c * x[i])
  }

  lemma {:induction false} SumTimes(c: real, x: seq<real>, count: nat)
    requires count <= |x|
    ensures SumTo(Times(c, x), count) == c * SumTo(x, count)
  {
    if count != 0 {
      SumTimes(c, x, count - 1);
      assert c * (SumTo(x, count - 1) + x[count - 1]) == c * SumTo(x, count - 1) + c * x[count - 1];
    }
  }

  lemma QuotientTimes(c: real, a: real, n: real)
    requires n > 0.0
    ensures c * a / n == c * (a / n)
  {
    assert c * (a / n) * n == c * a;
  }

  lemma MeanTimes(c: real, x: seq<real>)
    requires |x| > 0
    ensures Mean(Times(c, x)) == c * Mean(x)
  {
    SumTimes(c, x, |x|);
    QuotientTimes(c, SumTo(x, |x|), |x| as real);
  }

  // ---------------------------------------------------------------- NoiseFilter::apply

  /** The samples within distance one of i, cut off at the ends of the buffer. */
  function Window(x: seq<real>, i: nat): (w: seq<real>)
    requires i < |x|
    ensures 1 <= |w| <= 3
  {
    x[if i > 0 then i - 1 else 0..if i + 1 < |x| then i + 2 else i + 1]
  }

  /** Every sample replaced by the mean of its window. */
  function Filtered(x: seq<real>): (y: seq<real>)
    ensures |y| == |x|
  {
    seq(|x|, i requires 0 <= i < |x| => Mean(Window(x, i)))
  }

  lemma WindowSum(x: seq<real>, i: nat, sum: real, count: nat)
    requires i < |x|
    requires count == 1 + (if i > 0 then 1 else 0) + (if i + 1 < |x| then 1 else 0)
    requires sum == x[i] + (if i > 0 then x[i - 1] else 0.0) + (if i + 1 < |x| then x[i + 1] else 0.0)
    ensures Mean(Window(x, i)) == sum / count as real
  {
    var w := Window(x, i);
    assert |w| == count;
    if count == 1 {
      assert w == [x[i]];
      assert SumTo(w, 1) == SumTo(w, 0) + w[0];
    } else if count == 2 {
      assert SumTo(w, 2) == SumTo(w, 0) + w[0] + w[1];
    } else {
      assert SumTo(w, 1) == SumTo(w, 0) + w[0];
      assert SumTo(w, 3) == SumTo(w, 1) + w[1] + w[2];
    }
  }

  lemma WindowMean(x: seq<real>, i: nat)
    requires i < |x|
    ensures 0 < i < |x| - 1 ==> 3.0 * Mean(Window(x, i)) == x[i - 1] + x[i] + x[i + 1]
    ensures i == 0 && |x| > 1 ==> 2.0 * Mean(Window(x, i)) == x[0] + x[1]
    ensures i > 0 && i == |x| - 1 ==> 2.0 * Mean(Window(x, i)) == x[i - 1] + x[i]
    ensures |x| == 1 ==> Mean(Window(x, i)) == x[0]
  {
    var count := 1 + (if i > 0 then 1 else 0) + (if i + 1 < |x| then 1 else 0);
    var sum := x[i] + (if i > 0 then x[i - 1] else 0.0) + (if i + 1 < |x| then x[i + 1] else 0.0);
    WindowSum(x, i, sum, count);
  }

  /** Three-tap smoothing, written out. */
  ghost predicate IsSmoothed(x: seq<real>, y: seq<real>) {
    && |y| == |x|
    && (forall i :: 0 < i < |x| - 1 ==> 3.0 * y[i] == x[i - 1] + x[i] + x[i + 1])
    && (|x| > 1 ==> 2.0 * y[0] == x[0] + x[1])
    && (|x| > 1 ==> 2.0 * y[|x| - 1] == x[|x| - 2] + x[|x| - 1])
    && (|x| == 1 ==> y[0] == x[0])
  }

  /** The filter is the only way to smooth: every sample of the output is determined by its neighbours. */
  lemma SmoothedIff(x: seq<real>, y: seq<real>)
    ensures IsSmoothed(x, y) <==> y == Filtered(x)
  {
    var z := Filtered(x);
    forall i: nat | i < |x|
      ensures 0 < i < |x| - 1 ==> 3.0 * z[i] == x[i - 1] + x[i] + x[i + 1]
      ensures i == 0 && |x| > 1 ==> 2.0 * z[i] == x[0] + x[1]
      ensures i > 0 && i == |x| - 1 ==> 2.0 * z[i] == x[i - 1] + x[i]
      ensures |x| == 1 ==> z[i] == x[0]
    {
      WindowMean(x, i);
    }
    assert IsSmoothed(x, z);
    if IsSmoothed(x, y) {
      SmoothedUnique(x, y, z);
    }
  }

  lemma SmoothedUnique(x: seq<real>, y: seq<real>, z: seq<real>)
    requires IsSmoothed(x, y) && IsSmoothed(x, z)
    ensures y == z
  {
    forall i | 0 <= i < |x| ensures y[i] == z[i] {
      if 0 < i < |x| - 1 {
        var sum := x[i - 1] + x[i] + x[i + 1];
        assert 3.0 * y[i] == sum;
        assert 3.0 * z[i] == sum;
      }
    }
  }

  method NoiseFilter(samples: seq<real>) returns (filtered: seq<real>)
    ensures filtered == Filtered(samples) && |filtered| == |samples|
    ensures forall i :: 0 < i < |samples| - 1 ==> 3.0 * filtered[i] == samples[i - 1] + samples[i] + samples[i + 1]
    ensures |samples| > 1 ==> 2.0 * filtered[0] == samples[0] + samples[1]
    ensures |samples| > 1 ==>
              var n := |samples|; 2.0 * filtered[n - 1] == samples[n - 2] + samples[n - 1]
    ensures |samples| == 1 ==> filtered == samples
  {
    var n := |samples|;
    var out := new real[n];
    var i := 0;
    while i < n
      invariant 0 <= i <= n
      invariant forall p :: 0 <= p < i ==> out[p] == Filtered(samples)[p]
    {
      var sum, count := samples[i], 1;
      if i > 0 {
        sum := sum + samples[i - 1];
        count := count + 1;
      }
      if i + 1 < n {
        sum := sum + samples[i + 1];
        count := count + 1;
      }
      WindowSum(samples, i, sum, count);
      out[i] := sum / count as real;
      i := i + 1;
    }
    filtered := out[..];
    SmoothedIff(samples, filtered);
  }

  // ---------------------------------------------------------------- TargetDetection::apply

  const DETECTION_FACTOR := 4.0

  /** The peak is the largest bin (or 0), and the flag compares it with four times the mean. */
  ghost predicate IsDetection(spectrum: seq<real>, detected: bool, peak: real)
    requires |spectrum| > 0
  {
    && (forall i :: 0 <= i < |spectrum| ==> spectrum[i] <= peak)
    && peak >= 0.0
    && (peak == 0.0 || peak in spectrum)
    && (detected <==> peak > DETECTION_FACTOR * Mean(spectrum))
  }

  method TargetDetection(spectrum: seq<real>) returns (detected: bool, peak: real)
    requires |spectrum| > 0
    ensures IsDetection(spectrum, detected, peak)
    ensures detected <==> |spectrum| as real * peak > 4.0 * SumTo(spectrum, |spectrum|)
  {
    var sum := 0.0;
    peak := 0.0;
    var i := 0;
    while i < |spectrum|
      invariant 0 <= i <= |spectrum|
      invariant sum == SumTo(spectrum, i)
      invariant forall p :: 0 <= p < i ==> spectrum[p] <= peak
      invariant peak >= 0.0 && (peak == 0.0 || peak in spectrum)
    {
      sum := sum + spectrum[i];
      if spectrum[i] > peak {
        peak := spectrum[i];
      }
      i := i + 1;
    }
    var mean := sum / |spectrum| as real;
    detected := peak > DETECTION_FACTOR * mean;
    ThresholdOfSum(|spectrum| as real, sum, peak);
  }

  /** Comparing with four times the mean is comparing n times the peak with four times the sum. */
  lemma ThresholdOfSum(n: real, sum: real, peak: real)
    requires n > 0.0
    ensures peak > 4.0 * (sum / n) <==> n * peak > 4.0 * sum
  {
    var mean := sum / n;
    assert mean * n == sum;
    if peak > 4.0 * mean {
      PositiveProduct(peak - 4.0 * mean, n);
      assert (peak - 4.0 * mean) * n == n * peak - 4.0 * sum;
    } else if peak < 4.0 * mean {
      PositiveProduct(4.0 * mean - peak, n);
      assert (4.0 * mean - peak) * n == 4.0 * sum - n * peak;
    }
  }

  /** One bin p among bins of level a. */
  ghost predicate OnePeak(x: seq<real>, j: nat, p: real, a: real) {
    j < |x| && forall i :: 0 <= i < |x| ==> x[i] == if i == j then p else a
  }

  lemma {:induction false} OnePeakSum(x: seq<real>, j: nat, p: real, a: real, count: nat)
    requires OnePeak(x, j, p, a) && count <= |x|
    ensures SumTo(x, count) == count as real * a + (if j < count then p - a else 0.0)
  {
    if count != 0 {
      OnePeakSum(x, j, p, a, count - 1);
      assert count as real * a == (count - 1) as real * a + a;
    }
  }

  /** One bin p above n - 1 bins of level a is a target exactly when (n - 4) p > 4 (n - 1) a. */
  lemma OnePeakDetected(x: seq<real>, j: nat, p: real, a: real, detected: bool, peak: real)
    requires OnePeak(x, j, p, a) && 0.0 <= a <= p && IsDetection(x, detected, peak)
    ensures peak == p
    ensures detected <==> (|x| - 4) as real * p > 4.0 * (|x| - 1) as real * a
  {
    assert x[j] == p;
    OnePeakSum(x, j, p, a, |x|);
    var n := |x| as real;
    ThresholdOfSum(n, SumTo(x, |x|), peak);
    OnePeakArithmetic(n, p, a);
    assert (|x| - 4) as real == n - 4.0 && (|x| - 1) as real == n - 1.0;
  }

  lemma OnePeakArithmetic(n: real, p: real, a: real)
    ensures n * p > 4.0 * (n * a + (p - a)) <==> (n - 4.0) * p > 4.0 * (n - 1.0) * a
  {
    assert (n - 4.0) * p == n * p - 4.0 * p;
    assert 4.0 * (n - 1.0) * a == 4.0 * (n * a) - 4.0 * a;
  }

  ghost predicate NonNegative(x: seq<real>) {
    forall i :: 0 <= i < |x| ==> x[i] >= 0.0
  }

  function CountAbove(x: seq<real>, t: real, count: nat): (c: nat)
    requires count <= |x|
    ensures c <= count
  {
    if count == 0 then 0 else CountAbove(x, t, count - 1) + (if x[count - 1] > t then 1 else 0)
  }

  lemma {:induction false} SumAbove(x: seq<real>, t: real, count: nat)
    requires NonNegative(x) && t >= 0.0 && count <= |x|
    ensures SumTo(x, count) >= CountAbove(x, t, count) as real * t
    ensures CountAbove(x, t, count) > 0 ==> SumTo(x, count) > CountAbove(x, t, count) as real * t
  {
    if count != 0 {
      SumAbove(x, t, count - 1);
      var c := CountAbove(x, t, count - 1);
      assert (c + 1) as real * t == c as real * t + t;
    }
  }

  lemma {:induction false} SumNonNegative(x: seq<real>, count: nat)
    requires NonNegative(x) && count <= |x|
    ensures SumTo(x, count) >= 0.0
    ensures forall i :: 0 <= i < count ==> x[i] <= SumTo(x, count)
  {
    if count != 0 {
      SumNonNegative(x, count - 1);
    }
  }

  lemma QuarterOfMean(c: nat, n: nat, mean: real, t: real)
    requires mean >= 0.0 && 4 * c >= n && t == DETECTION_FACTOR * mean
    ensures c as real * t >= mean * n as real
  {
    assert c as real * t == (4 * c) as real * mean;
    if n < 4 * c && mean > 0.0 {
      PositiveProduct((4 * c - n) as real, mean);
      assert (4 * c - n) as real * mean == (4 * c) as real * mean - mean * n as real;
    }
  }

  lemma MeanNonNegative(x: seq<real>)
    requires NonNegative(x) && |x| > 0
    ensures Mean(x) >= 0.0 && Mean(x) * |x| as real == SumTo(x, |x|)
  {
    SumNonNegative(x, |x|);
  }

  /** Fewer than a quarter of the bins of any spectrum can exceed four times its mean. */
  lemma FewAboveThreshold(x: seq<real>)
    requires NonNegative(x) && |x| > 0
    ensures 4 * CountAbove(x, DETECTION_FACTOR * Mean(x), |x|) < |x|
  {
    MeanNonNegative(x);
    var t := DETECTION_FACTOR * Mean(x);
    var c := CountAbove(x, t, |x|);
    SumAbove(x, t, |x|);
    if 4 * c >= |x| {
      QuarterOfMean(c, |x|, Mean(x), t);
      assert false;
    }
  }

  /** What the detector decides about any non-negative spectrum. */
  lemma DetectorMeaning(x: seq<real>, detected: bool, peak: real)
    requires NonNegative(x) && |x| > 0 && IsDetection(x, detected, peak)
    ensures peak in x && forall i :: 0 <= i < |x| ==> x[i] <= peak
    ensures detected <==> exists i :: 0 <= i < |x| && x[i] > DETECTION_FACTOR * Mean(x)
    ensures (forall i :: 0 <= i < |x| ==> x[i] == x[0]) ==> !detected
  {
    if peak == 0.0 {
      assert x[0] == peak;
    }
    var p :| 0 <= p < |x| && x[p] == peak;
    FewAboveThreshold(x);
    if forall i :: 0 <= i < |x| ==> x[i] == x[0] {
      if detected {
        AllAbove(x, DETECTION_FACTOR * Mean(x), |x|);
        assert false;
      }
    }
  }

  lemma {:induction false} AllAbove(x: seq<real>, t: real, count: nat)
    requires count <= |x| && forall i :: 0 <= i < |x| ==> x[i] > t
    ensures CountAbove(x, t, count) == count
  {
    if count != 0 {
      AllAbove(x, t, count - 1);
    }
  }

  // ---------------------------------------------------------------- FFT::apply and the whole pipeline

  function Lift(x: seq<real>): (y: seq<Complex>)
    ensures |y| == |x|
  {
    seq(|x|, i requires 0 <= i < |x| => Complex(x[i], 0.0))
  }

  /** s is the magnitude of z divided by n == 2^m. */
  ghost predicate BinOf(m: nat, z: Complex, s: real) {
    s >= 0.0 && IsMagnitude(s * Pow2(m) as real, z)
  }

  /** The lower half of the bins X, as magnitudes divided by n. */
  ghost predicate IsHalfSpectrum(m: nat, X: seq<Complex>, s: seq<real>) {
    && |X| == Pow2(m) && |s| == Pow2(m) / 2
    && forall i {:trigger BinOf(m, X[i], s[i])} :: 0 <= i < |s| ==> BinOf(m, X[i], s[i])
  }

  /** What FFT::apply returns for the samples x. */
  ghost predicate IsSpectrum(R: Ring<Complex>, roots: seq<Complex>, m: nat, x: seq<real>, s: seq<real>) {
    |roots| > m && IsHalfSpectrum(m, Dft(R, roots[m], Lift(x)), s)
  }

  lemma QuotientBin(m: nat, a: real, z: Complex)
    requires IsMagnitude(a, z)
    ensures BinOf(m, z, a / Pow2(m) as real)
  {
    assert a / Pow2(m) as real * Pow2(m) as real == a;
  }

  method Transformed(R: Ring<Complex>, roots: seq<Complex>, m: nat, samples: seq<real>) returns (bins: seq<Complex>)
    requires IsComplexField(R) && RootFamily(R, roots, m) && |samples| == Pow2(m)
    ensures bins == Dft(R, roots[m], Lift(samples))
  {
    var n := |samples|;
    var data := new Complex[n](i requires 0 <= i < n => Complex(samples[i], 0.0));
    assert data[..] == Lift(samples);
    ComplexIsRing(R);
    Transform(R, roots, m, data);
    bins := data[..];
  }

  method Magnitudes(m: nat, abs: Complex -> real, data: seq<Complex>) returns (spectrum: seq<real>)
    requires |data| == Pow2(m)
    requires forall z :: IsMagnitude(abs(z), z)
    ensures IsHalfSpectrum(m, data, spectrum)
    ensures forall i :: 0 <= i < |spectrum| ==> spectrum[i] * |data| as real == abs(data[i])
  {
    var n := |data|;
    var out := new real[n / 2];
    var i := 0;
    while i < n / 2
      invariant 0 <= i <= n / 2
      invariant forall p {:trigger BinOf(m, data[p], out[p])} :: 0 <= p < i ==> BinOf(m, data[p], out[p])
      invariant forall p :: 0 <= p < i ==> out[p] * n as real == abs(data[p])
    {
      QuotientBin(m, abs(data[i]), data[i]);
      out[i] := abs(data[i]) / n as real;
      i := i + 1;
    }
    spectrum := out[..];
  }

  /** `abs` stands for std::abs on complex values: some function that returns magnitudes. */
  method Spectrum(R: Ring<Complex>, roots: seq<Complex>, m: nat, abs: Complex -> real, samples: seq<real>)
    returns (spectrum: seq<real>)
    requires IsComplexField(R) && RootFamily(R, roots, m) && |samples| == Pow2(m)
    requires forall z :: IsMagnitude(abs(z), z)
    ensures IsSpectrum(R, roots, m, samples, spectrum) && |spectrum| == |samples| / 2
    ensures forall i :: 0 <= i < |spectrum| ==>
              spectrum[i] * |samples| as real == abs(DftSum(R, roots[m], Lift(samples), i, |samples|))
  {
    var data := Transformed(R, roots, m, samples);
    spectrum := Magnitudes(m, abs, data);
    assert data == Dft(R, roots[m], Lift(samples));
  }

  /** What SignalProcessor::process returns for a buffer of samples. */
  ghost predicate IsResult(R: Ring<Complex>, roots: seq<Complex>, m: nat, samples: seq<real>, detected: bool, peak: real) {
    exists spectrum ::
      && IsSpectrum(R, roots, m, Filtered(samples), spectrum)
      && |spectrum| > 0
      && IsDetection(spectrum, detected, peak)
  }

  method Process(R: Ring<Complex>, roots: seq<Complex>, m: nat, abs: Complex -> real, samples: seq<real>)
    returns (detected: bool, peak: real)
    requires IsComplexField(R) && RootFamily(R, roots, m)
    requires m >= 1 && |samples| == Pow2(m)
    requires forall z :: IsMagnitude(abs(z), z)
    ensures IsResult(R, roots, m, samples, detected, peak)
  {
    var filtered := NoiseFilter(samples);
    var spectrum := Spectrum(R, roots, m, abs, filtered);
    detected, peak := TargetDetection(spectrum);
  }
}
