/** What the transform of src/fft.cpp does to whole families of inputs, in every ring. */
module DftLaws {
  import opened Rings
  import opened BitReversal
  import opened Fourier

  // ---------------------------------------------------------------- scaling

  function Scaled<T>(R: Ring<T>, c: T, x: seq<T>): (y: seq<T>)
    ensures |y| == |x|
  {
    seq(|x|, i requires 0 <= i < |x| => R.mul(c, x[i]))
  }

  lemma {:induction false} ScaledSum<T(!new)>(R: Ring<T>, w: T, c: T, x: seq<T>, y: seq<T>, k: nat, count: nat)
    requires IsRing(R) && count <= |x| == |y|
    requires forall i :: 0 <= i < |x| ==> y[i] == R.mul(c, x[i])
    ensures DftSum(R, w, y, k, count) == R.mul(c, DftSum(R, w, x, k, count))
  {
    if count == 0 {
      MulZero(R, c);
    } else {
      ScaledSum(R, w, c, x, y, k, count - 1);
      var p := Pow(R, w, (count - 1) * k);
      MulAssoc(R, c, x[count - 1], p);
      Distrib(R, c, DftSum(R, w, x, k, count - 1), R.mul(x[count - 1], p));
    }
  }

  /** Scaling the input by any ring element scales every bin by it. */
  lemma ScaledDft<T(!new)>(R: Ring<T>, w: T, c: T, x: seq<T>)
    requires IsRing(R)
    ensures Dft(R, w, Scaled(R, c, x)) == Scaled(R, c, Dft(R, w, x))
  {
    forall k | 0 <= k < |x|
      ensures Dft(R, w, Scaled(R, c, x))[k] == Scaled(R, c, Dft(R, w, x))[k]
    {
      ScaledSum(R, w, c, x, Scaled(R, c, x), k, |x|);
    }
  }

  // ---------------------------------------------------------------- constant inputs

  /** 2^s times c, by doubling. */
  function Doubled<T>(R: Ring<T>, c: T, s: nat): T {
    if s == 0 then c else R.add(Doubled(R, c, s - 1), Doubled(R, c, s - 1))
  }

  function Constant<T>(c: T, n: nat): (x: seq<T>)
    ensures |x| == n
  {
    seq(n, _ => c)
  }

  function Impulse<T>(R: Ring<T>, peak: T, n: nat): (x: seq<T>)
    ensures |x| == n
  {
    seq(n, i => if i == 0 then peak else R.zero)
  }

  lemma {:induction false} ConstantEval<T(!new)>(R: Ring<T>, roots: seq<T>, m: nat, s: nat, c: T, x: seq<T>, i: nat)
    requires IsRing(R) && RootFamily(R, roots, m) && s <= m && i < Pow2(s)
    requires x == Constant(c, Pow2(s))
    ensures Eval(R, x, Pow(R, roots[s], i), |x|) == if i == 0 then Doubled(R, c, s) else R.zero
  {
    if s == 0 {
      SingletonEval(R, x);
    } else {
      var h := Pow2(s - 1);
      var e, k := Constant(c, h), if i < h then i else i - h;
      HalvesOfConstant(c, h);
      ConstantEval(R, roots, m, s - 1, c, e, k);
      ButterflyAt(R, roots, m, s - 1, x, k);
      ImpulseBins(R, roots[s], roots[s - 1], x, e, Doubled(R, c, s - 1), k, i);
    }
  }

  lemma HalvesOfConstant<T>(c: T, h: nat)
    ensures Evens(Constant(c, 2 * h)) == Constant(c, h) == Odds(Constant(c, 2 * h))
  {
  }

  lemma ImpulseBins<T(!new)>(R: Ring<T>, w: T, v: T, x: seq<T>, e: seq<T>, p: T, k: nat, i: nat)
    requires IsRing(R) && k < |e| && (i == k || i == |e| + k)
    requires Eval(R, e, Pow(R, v, k), |e|) == if k == 0 then p else R.zero
    requires Butterfly(R, w, v, x, e, e, k)
    ensures Eval(R, x, Pow(R, w, i), |x|) == if i == 0 then R.add(p, p) else R.zero
  {
    ImpulseButterfly(R, w, p, k);
  }

  /** Two equal impulses combine to one of twice the height. */
  lemma ImpulseButterfly<T(!new)>(R: Ring<T>, w: T, p: T, k: nat)
    requires IsRing(R)
    ensures R.mul(p, Pow(R, w, 0)) == p && R.Sub(p, p) == R.zero
    ensures R.add(R.zero, R.mul(R.zero, Pow(R, w, k))) == R.zero
    ensures R.Sub(R.zero, R.mul(R.zero, Pow(R, w, k))) == R.zero
  {
    MulOne(R, p);
    AddNeg(R, p);
    MulZero(R, Pow(R, w, k));
    AddZero(R, R.zero);
    AddNeg(R, R.zero);
  }

  /** A constant input has all its energy in bin 0. */
  lemma ConstantDft<T(!new)>(R: Ring<T>, roots: seq<T>, m: nat, c: T)
    requires IsRing(R) && RootFamily(R, roots, m)
    ensures Dft(R, roots[m], Constant(c, Pow2(m))) == Impulse(R, Doubled(R, c, m), Pow2(m))
  {
    var X, y := Bins(R, roots[m], Constant(c, Pow2(m))), Impulse(R, Doubled(R, c, m), Pow2(m));
    forall i | 0 <= i < |X|
      ensures X[i] == y[i]
    {
      ConstantEval(R, roots, m, m, c, Constant(c, Pow2(m)), i);
    }
    BinsAreDft(R, roots[m], Constant(c, Pow2(m)));
  }

  // ---------------------------------------------------------------- conjugation

  ghost predicate HomAt<T(!new)>(R: Ring<T>, f: T -> T, x: T, y: T) {
    && f(R.add(x, y)) == R.add(f(x), f(y))
    && f(R.mul(x, y)) == R.mul(f(x), f(y))
  }

  ghost predicate IsHom<T(!new)>(R: Ring<T>, f: T -> T) {
    && f(R.zero) == R.zero
    && f(R.one) == R.one
    && forall x, y :: HomAt(R, f, x, y)
  }

  lemma {:induction false} HomPow<T(!new)>(R: Ring<T>, f: T -> T, z: T, k: nat)
    requires IsHom(R, f)
    ensures f(Pow(R, z, k)) == Pow(R, f(z), k)
  {
    if k != 0 {
      HomPow(R, f, z, k - 1);
      assert HomAt(R, f, Pow(R, z, k - 1), z);
    }
  }

  lemma {:induction false} HomEval<T(!new)>(R: Ring<T>, f: T -> T, x: seq<T>, z: T, count: nat)
    requires IsHom(R, f) && count <= |x|
    requires forall i :: 0 <= i < |x| ==> f(x[i]) == x[i]
    ensures f(Eval(R, x, z, count)) == Eval(R, x, f(z), count)
  {
    if count != 0 {
      HomEval(R, f, x, z, count - 1);
      HomPow(R, f, z, count - 1);
      assert HomAt(R, f, x[count - 1], Pow(R, z, count - 1));
      assert HomAt(R, f, Eval(R, x, z, count - 1), R.mul(x[count - 1], Pow(R, z, count - 1)));
    }
  }

  lemma {:induction false} PowOfOne<T(!new)>(R: Ring<T>, k: nat)
    requires IsRing(R)
    ensures Pow(R, R.one, k) == R.one
  {
    if k != 0 {
      PowOfOne(R, k - 1);
      MulOne(R, R.one);
    }
  }

  lemma InverseUnique<T(!new)>(R: Ring<T>, a: T, b: T, q: T)
    requires IsRing(R)
    requires R.mul(a, q) == R.one && R.mul(b, q) == R.one
    ensures a == b
  {
    MulOne(R, a);
    MulOne(R, b);
    MulComm(R, b, q);
    MulAssoc(R, a, q, b);
  }

  /** When f(w) inverts w, f sends w^k to w^(n-k). */
  lemma MirrorPoint<T(!new)>(R: Ring<T>, f: T -> T, w: T, n: nat, k: nat)
    requires IsRing(R) && IsHom(R, f) && k <= n
    requires Pow(R, w, n) == R.one && R.mul(f(w), w) == R.one
    ensures f(Pow(R, w, k)) == Pow(R, w, n - k)
  {
    HomPow(R, f, w, k);
    PowProduct(R, f(w), w, k);
    PowOfOne(R, k);
    PowAdd(R, w, n - k, k);
    InverseUnique(R, Pow(R, f(w), k), Pow(R, w, n - k), Pow(R, w, k));
  }

  lemma MirrorEval<T(!new)>(R: Ring<T>, f: T -> T, w: T, x: seq<T>, k: nat)
    requires IsRing(R) && IsHom(R, f) && k <= |x|
    requires Pow(R, w, |x|) == R.one && R.mul(f(w), w) == R.one
    requires forall i :: 0 <= i < |x| ==> f(x[i]) == x[i]
    ensures f(Eval(R, x, Pow(R, w, k), |x|)) == Eval(R, x, Pow(R, w, |x| - k), |x|)
  {
    HomEval(R, f, x, Pow(R, w, k), |x|);
    MirrorPoint(R, f, w, |x|, k);
  }

  /** Inputs fixed by f have spectra in which f swaps bins k and n - k. */
  lemma MirrorDft<T(!new)>(R: Ring<T>, f: T -> T, roots: seq<T>, m: nat, x: seq<T>, k: nat)
    requires IsRing(R) && IsHom(R, f) && RootFamily(R, roots, m)
    requires |x| == Pow2(m) && 1 <= k < |x|
    requires R.mul(f(roots[m]), roots[m]) == R.one
    requires forall i :: 0 <= i < |x| ==> f(x[i]) == x[i]
    ensures Dft(R, roots[m], x)[|x| - k] == f(Dft(R, roots[m], x)[k])
  {
    FullTurn(R, roots, m, m);
    MirrorEval(R, f, roots[m], x, k);
    BinsAreDft(R, roots[m], x);
  }
}
