/** Complex numbers with exact real parts, standing for `std::complex<float>` (src/fft.cpp:20-23). */
module ComplexNumbers {
  import opened Rings
  import opened BitReversal
  import opened Fourier
  import opened DftLaws

  datatype Complex = Complex(re: real, im: real)

  function Add(x: Complex, y: Complex): Complex {
    Complex(x.re + y.re, x.im + y.im)
  }

  function Neg(x: Complex): Complex {
    Complex(-x.re, -x.im)
  }

  function Mul(x: Complex, y: Complex): Complex {
    Complex(x.re * y.re - x.im * y.im, x.re * y.im + x.im * y.re)
  }

  /** R computes complex arithmetic on x and y. */
  ghost predicate ActsAs(R: Ring<Complex>, x: Complex, y: Complex) {
    && R.zero == Complex(0.0, 0.0)
    && R.one == Complex(1.0, 0.0)
    && R.add(x, y) == Add(x, y)
    && R.neg(x) == Neg(x)
    && R.mul(x, y) == Mul(x, y)
  }

  ghost predicate IsComplexField(R: Ring<Complex>) {
    forall x, y :: ActsAs(R, x, y)
  }

  function ComplexField(): (R: Ring<Complex>)
    ensures IsComplexField(R)
  {
    Ring(Complex(0.0, 0.0), Complex(1.0, 0.0), Add, Neg, Mul)
  }

  function Conj(z: Complex): Complex {
    Complex(z.re, -z.im)
  }

  function Norm2(z: Complex): real {
    z.re * z.re + z.im * z.im
  }

  /** r is std::abs(z): the non-negative square root of its squared norm. */
  ghost predicate IsMagnitude(r: real, z: Complex) {
    r >= 0.0 && r * r == Norm2(z)
  }

  lemma PositiveProduct(a: real, b: real)
    requires a > 0.0 && b > 0.0
    ensures a * b > 0.0
  {
  }

  lemma SquareGrows(r: real, s: real)
    requires 0.0 <= r < s
    ensures r * r < s * s
  {
    PositiveProduct(s - r, s + r);
  }

  lemma MagnitudeUnique(r: real, s: real)
    requires r >= 0.0 && s >= 0.0 && r * r == s * s
    ensures r == s
  {
    if r < s {
      SquareGrows(r, s);
    } else if s < r {
      SquareGrows(s, r);
    }
  }

  lemma ComplexIsRing(R: Ring<Complex>)
    requires IsComplexField(R)
    ensures IsRing(R)
  {
    forall law, x, y, z
      ensures Holds(R, law, x, y, z)
    {
      LawAt(R, law, x, y, z);
    }
  }

  lemma LawAt(R: Ring<Complex>, law: Law, x: Complex, y: Complex, z: Complex)
    requires IsComplexField(R)
    ensures Holds(R, law, x, y, z)
  {
    assert ActsAs(R, x, y) && ActsAs(R, y, z) && ActsAs(R, y, x) && ActsAs(R, x, z);
    match law
    case AddAssociates => assert ActsAs(R, Add(x, y), z) && ActsAs(R, x, Add(y, z));
    case MulAssociates =>
      assert ActsAs(R, Mul(x, y), z) && ActsAs(R, x, Mul(y, z));
      MulAssociative(x, y, z);
    case Distributes =>
      assert ActsAs(R, x, Add(y, z)) && ActsAs(R, Mul(x, y), Mul(x, z));
      MulDistributes(x, y, z);
    case AddCommutes =>
    case MulCommutes => assert Mul(x, y) == Mul(y, x);
    case AddUnit => assert ActsAs(R, x, R.zero);
    case MulUnit => assert ActsAs(R, x, R.one);
    case AddInverse => assert ActsAs(R, x, Neg(x));
  }

  lemma MulDistributes(x: Complex, y: Complex, z: Complex)
    ensures Mul(x, Add(y, z)) == Add(Mul(x, y), Mul(x, z))
  {
  }

  lemma MulAssociative(x: Complex, y: Complex, z: Complex)
    ensures Mul(Mul(x, y), z) == Mul(x, Mul(y, z))
  {
    assert (x.re * y.re - x.im * y.im) * z.re == x.re * (y.re * z.re) - x.im * (y.im * z.re);
    assert (x.re * y.im + x.im * y.re) * z.im == x.re * (y.im * z.im) + x.im * (y.re * z.im);
    assert (x.re * y.re - x.im * y.im) * z.im == x.re * (y.re * z.im) - x.im * (y.im * z.im);
    assert (x.re * y.im + x.im * y.re) * z.re == x.re * (y.im * z.re) + x.im * (y.re * z.re);
  }

  lemma ConjOfProduct(x: Complex, y: Complex)
    ensures Conj(Mul(x, y)) == Mul(Conj(x), Conj(y))
  {
  }

  lemma ConjAt(R: Ring<Complex>, x: Complex, y: Complex)
    requires IsComplexField(R)
    ensures HomAt(R, Conj, x, y)
    ensures Conj(R.zero) == R.zero && Conj(R.one) == R.one
  {
    assert ActsAs(R, x, y) && ActsAs(R, Conj(x), Conj(y));
    ConjOfProduct(x, y);
  }

  lemma ConjIsHom(R: Ring<Complex>)
    requires IsComplexField(R)
    ensures IsHom(R, Conj)
  {
    ConjAt(R, R.zero, R.one);
    forall x, y
      ensures HomAt(R, Conj, x, y)
    {
      ConjAt(R, x, y);
    }
  }

  lemma NormOfSquare(w: Complex)
    ensures Norm2(Mul(w, w)) == Norm2(w) * Norm2(w)
  {
    var a, b := w.re * w.re, w.im * w.im;
    var c := w.re * w.im;
    assert c * c == a * b;
    assert (a - b) * (a - b) == a * a - 2.0 * (a * b) + b * b;
    assert (c + c) * (c + c) == 4.0 * (c * c);
    assert (a + b) * (a + b) == a * a + 2.0 * (a * b) + b * b;
  }

  /** Every root in the family lies on the unit circle. */
  lemma {:induction false} UnitRoots(R: Ring<Complex>, roots: seq<Complex>, m: nat, s: nat)
    requires IsComplexField(R) && RootFamily(R, roots, m) && s <= m
    ensures Norm2(roots[s]) == 1.0
  {
    assert ActsAs(R, roots[s], roots[s]);
    if s != 0 {
      UnitRoots(R, roots, m, s - 1);
      assert IsSquareOf(R, roots, s - 1);
      NormOfSquare(roots[s]);
      MagnitudeUnique(Norm2(roots[s]), 1.0);
    }
  }

  lemma RootConjugate(R: Ring<Complex>, roots: seq<Complex>, m: nat)
    requires IsComplexField(R) && RootFamily(R, roots, m)
    ensures R.mul(Conj(roots[m]), roots[m]) == R.one
  {
    UnitRoots(R, roots, m, m);
    assert ActsAs(R, Conj(roots[m]), roots[m]);
  }

  lemma NormOfConj(z: Complex)
    ensures Norm2(Conj(z)) == Norm2(z)
  {
  }

  /** For real input, bin n - k is the conjugate of bin k and has the same magnitude, so the lower half
      returned by FFT::apply determines the magnitude of every other bin except n/2. */
  lemma RealInputMirror(R: Ring<Complex>, roots: seq<Complex>, m: nat, x: seq<Complex>, k: nat)
    requires IsComplexField(R) && RootFamily(R, roots, m) && |x| == Pow2(m)
    requires forall i :: 0 <= i < |x| ==> x[i].im == 0.0
    requires 1 <= k < |x|
    ensures Dft(R, roots[m], x)[|x| - k] == Conj(Dft(R, roots[m], x)[k])
    ensures Norm2(Dft(R, roots[m], x)[|x| - k]) == Norm2(Dft(R, roots[m], x)[k])
  {
    ComplexIsRing(R);
    ConjIsHom(R);
    RootConjugate(R, roots, m);
    MirrorDft(R, Conj, roots, m, x, k);
    NormOfConj(Dft(R, roots[m], x)[k]);
  }
}
