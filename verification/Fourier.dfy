/** The transform that FFT::apply promises, and the radix-2 recursion that computes it. */
module Fourier {
  import opened Rings
  import opened BitReversal

  // ---------------------------------------------------------------- the reference transform

  /** The sum of x[j] * w^(j*k) over j < count. */
  function DftSum<T>(R: Ring<T>, w: T, x: seq<T>, k: nat, count: nat): T
    requires count <= |x|
  {
    if count == 0 then R.zero
    else R.add(DftSum(R, w, x, k, count - 1), R.mul(x[count - 1], Pow(R, w, (count - 1) * k)))
  }

  /** The discrete Fourier transform, straight from its definition. */
  function Dft<T>(R: Ring<T>, w: T, x: seq<T>): (y: seq<T>)
    ensures |y| == |x|
  {
    seq(|x|, k requires 0 <= k < |x| => DftSum(R, w, x, k, |x|))
  }

  /** roots[s] plays exp(-2*pi*i / 2^s), the `wLen` of the stage with len == 2^s. */
  ghost predicate RootFamily<T>(R: Ring<T>, roots: seq<T>, m: nat) {
    && |roots| > m
    && roots[0] == R.one
    && (m >= 1 ==> roots[1] == R.neg(R.one))
    && forall s :: 0 <= s < m ==> IsSquareOf(R, roots, s)
  }

  ghost predicate IsSquareOf<T>(R: Ring<T>, roots: seq<T>, s: nat)
    requires s + 1 < |roots|
  {
    R.mul(roots[s + 1], roots[s + 1]) == roots[s]
  }

  // ---------------------------------------------------------------- the decimation identities

  function Evens<T>(x: seq<T>): (y: seq<T>)
    ensures |y| == |x| / 2
  {
    seq(|x| / 2, i requires 0 <= i < |x| / 2 => x[2 * i])
  }

  function Odds<T>(x: seq<T>): (y: seq<T>)
    ensures |y| == |x| / 2
  {
    seq(|x| / 2, i requires 0 <= i < |x| / 2 => x[2 * i + 1])
  }

  /** The polynomial with coefficients x at z.  Bin k of the transform is its value at w^k. */
  function Eval<T>(R: Ring<T>, x: seq<T>, z: T, count: nat): T
    requires count <= |x|
  {
    if count == 0 then R.zero
    else R.add(Eval(R, x, z, count - 1), R.mul(x[count - 1], Pow(R, z, count - 1)))
  }

  /** The values of that polynomial at w^0, w^1, ..., w^(n-1). */
  function Bins<T>(R: Ring<T>, w: T, x: seq<T>): (y: seq<T>)
    ensures |y| == |x|
  {
    seq(|x|, k requires 0 <= k < |x| => Eval(R, x, Pow(R, w, k), |x|))
  }

  lemma BinsAreDft<T(!new)>(R: Ring<T>, w: T, x: seq<T>)
    requires IsRing(R)
    ensures Bins(R, w, x) == Dft(R, w, x)
  {
    var y, X := Bins(R, w, x), Dft(R, w, x);
    forall k | 0 <= k < |x|
      ensures y[k] == X[k]
    {
      DftIsEval(R, w, x, k, |x|);
    }
  }

  lemma {:induction false} DftIsEval<T(!new)>(R: Ring<T>, w: T, x: seq<T>, k: nat, count: nat)
    requires IsRing(R) && count <= |x|
    ensures DftSum(R, w, x, k, count) == Eval(R, x, Pow(R, w, k), count)
  {
    if count != 0 {
      DftIsEval(R, w, x, k, count - 1);
      PowMul(R, w, k, count - 1);
    }
  }

  /** A polynomial of length 2t is its even half plus z times its odd half, both at z^2. */
  lemma {:induction false} SplitEval<T(!new)>(R: Ring<T>, x: seq<T>, e: seq<T>, o: seq<T>, z: T, t: nat)
    requires IsRing(R) && 2 * t <= |x| && t <= |e| == |o|
    requires forall i :: 0 <= i < t ==> e[i] == x[2 * i] && o[i] == x[2 * i + 1]
    ensures Eval(R, x, z, 2 * t)
         == R.add(Eval(R, e, R.mul(z, z), t), R.mul(z, Eval(R, o, R.mul(z, z), t)))
  {
    if t == 0 {
      MulZero(R, z);
      AddZero(R, R.zero);
    } else {
      SplitEval(R, x, e, o, z, t - 1);
      EvalTwoTerms(R, x, z, t);
      var z2 := R.mul(z, z);
      var p := Pow(R, z2, t - 1);
      Regroup(R, Eval(R, e, z2, t - 1), Eval(R, o, z2, t - 1), z, R.mul(e[t - 1], p), R.mul(o[t - 1], p));
    }
  }

  lemma EvalTwoTerms<T(!new)>(R: Ring<T>, x: seq<T>, z: T, t: nat)
    requires IsRing(R) && 1 <= t && 2 * t <= |x|
    ensures var j, p := 2 * (t - 1), Pow(R, R.mul(z, z), t - 1);
            Eval(R, x, z, 2 * t) == R.add(R.add(Eval(R, x, z, j), R.mul(x[j], p)), R.mul(z, R.mul(x[j + 1], p)))
  {
    var j, p := 2 * (t - 1), Pow(R, R.mul(z, z), t - 1);
    PowSquare(R, z, t - 1);
    assert Eval(R, x, z, j + 1) == R.add(Eval(R, x, z, j), R.mul(x[j], p));
    assert Pow(R, z, j + 1) == R.mul(p, z);
    MulComm(R, p, z);
    MulSwap(R, x[j + 1], z, p);
  }

  /** (e + p*o) + x + p*y == (e + x) + p*(o + y) */
  lemma Regroup<T(!new)>(R: Ring<T>, e: T, o: T, p: T, x: T, y: T)
    requires IsRing(R)
    ensures R.add(R.add(R.add(e, R.mul(p, o)), x), R.mul(p, y))
         == R.add(R.add(e, x), R.mul(p, R.add(o, y)))
  {
    AddAssoc(R, R.add(e, R.mul(p, o)), x, R.mul(p, y));
    AddSwapMiddle(R, e, R.mul(p, o), x, R.mul(p, y));
    Distrib(R, p, o, y);
  }

  lemma {:induction false} HalfTurn<T(!new)>(R: Ring<T>, roots: seq<T>, m: nat, s: nat)
    requires IsRing(R) && RootFamily(R, roots, m) && s < m
    ensures Pow(R, roots[s + 1], Pow2(s)) == R.neg(R.one)
  {
    if s == 0 {
      assert Pow(R, roots[1], 1) == R.mul(Pow(R, roots[1], 0), roots[1]);
      MulOne(R, roots[1]);
    } else {
      HalfTurn(R, roots, m, s - 1);
      assert IsSquareOf(R, roots, s);
      PowSquare(R, roots[s + 1], Pow2(s - 1));
    }
  }

  lemma FullTurn<T(!new)>(R: Ring<T>, roots: seq<T>, m: nat, s: nat)
    requires IsRing(R) && RootFamily(R, roots, m) && s <= m
    ensures Pow(R, roots[s], Pow2(s)) == R.one
  {
    if s == 0 {
      assert Pow(R, roots[0], 1) == R.mul(Pow(R, roots[0], 0), roots[0]);
      MulOne(R, R.one);
    } else {
      HalfTurn(R, roots, m, s - 1);
      PowAdd(R, roots[s], Pow2(s - 1), Pow2(s - 1));
      MulNeg(R, R.neg(R.one), R.one);
      MulOne(R, R.neg(R.one));
      AddNeg(R, R.one);
      AddComm(R, R.one, R.neg(R.one));
      NegUnique(R, R.neg(R.one), R.one);
    }
  }

  // ---------------------------------------------------------------- the butterfly

  /** Bins k and h + k of x are the sum and difference of bin k of e and twisted bin k of o. */
  ghost predicate Butterfly<T>(R: Ring<T>, w: T, v: T, x: seq<T>, e: seq<T>, o: seq<T>, k: nat) {
    var a, b := Eval(R, e, Pow(R, v, k), |e|), R.mul(Eval(R, o, Pow(R, v, k), |o|), Pow(R, w, k));
    && Eval(R, x, Pow(R, w, k), |x|) == R.add(a, b)
    && Eval(R, x, Pow(R, w, |e| + k), |x|) == R.Sub(a, b)
  }

  /** Cooley-Tukey: the transforms of the even and odd samples give both halves of the transform. */
  lemma ButterflyAt<T(!new)>(R: Ring<T>, roots: seq<T>, m: nat, s: nat, x: seq<T>, k: nat)
    requires IsRing(R) && RootFamily(R, roots, m) && s < m
    requires |x| == Pow2(s + 1) && k < Pow2(s)
    ensures Butterfly(R, roots[s + 1], roots[s], x, Evens(x), Odds(x), k)
  {
    assert |Evens(x)| == |Odds(x)| == Pow2(s);
    LowerBin(R, roots, m, s, x, k);
    UpperBin(R, roots, m, s, x, k);
    assert |x| == 2 * Pow2(s);
  }

  /** Bins i and i + h see the half transforms at the same point, w^(2i). */
  lemma BinSplit<T(!new)>(R: Ring<T>, roots: seq<T>, m: nat, s: nat, x: seq<T>, i: nat, z: T)
    requires IsRing(R) && RootFamily(R, roots, m) && s < m
    requires |x| == Pow2(s + 1)
    requires R.mul(z, z) == R.mul(Pow(R, roots[s + 1], i), Pow(R, roots[s + 1], i))
    ensures Eval(R, x, z, |x|)
         == R.add(Eval(R, Evens(x), Pow(R, roots[s], i), Pow2(s)),
                  R.mul(z, Eval(R, Odds(x), Pow(R, roots[s], i), Pow2(s))))
  {
    assert IsSquareOf(R, roots, s);
    PowProduct(R, roots[s + 1], roots[s + 1], i);
    SplitEval(R, x, Evens(x), Odds(x), z, Pow2(s));
  }

  lemma LowerBin<T(!new)>(R: Ring<T>, roots: seq<T>, m: nat, s: nat, x: seq<T>, i: nat)
    requires IsRing(R) && RootFamily(R, roots, m) && s < m
    requires |x| == Pow2(s + 1) && i < Pow2(s)
    ensures Eval(R, x, Pow(R, roots[s + 1], i), |x|)
         == R.add(Eval(R, Evens(x), Pow(R, roots[s], i), Pow2(s)),
                  R.mul(Eval(R, Odds(x), Pow(R, roots[s], i), Pow2(s)), Pow(R, roots[s + 1], i)))
  {
    BinSplit(R, roots, m, s, x, i, Pow(R, roots[s + 1], i));
    MulComm(R, Pow(R, roots[s + 1], i), Eval(R, Odds(x), Pow(R, roots[s], i), Pow2(s)));
  }

  lemma UpperBin<T(!new)>(R: Ring<T>, roots: seq<T>, m: nat, s: nat, x: seq<T>, i: nat)
    requires IsRing(R) && RootFamily(R, roots, m) && s < m
    requires |x| == Pow2(s + 1) && i < Pow2(s)
    ensures Eval(R, x, Pow(R, roots[s + 1], Pow2(s) + i), |x|)
         == R.Sub(Eval(R, Evens(x), Pow(R, roots[s], i), Pow2(s)),
                  R.mul(Eval(R, Odds(x), Pow(R, roots[s], i), Pow2(s)), Pow(R, roots[s + 1], i)))
  {
    var p, o := Pow(R, roots[s + 1], i), Eval(R, Odds(x), Pow(R, roots[s], i), Pow2(s));
    NegatedPower(R, roots, m, s, i);
    NegSquare(R, p);
    BinSplit(R, roots, m, s, x, i, R.neg(p));
    MulComm(R, R.neg(p), o);
    MulNeg(R, o, p);
  }

  lemma NegatedPower<T(!new)>(R: Ring<T>, roots: seq<T>, m: nat, s: nat, i: nat)
    requires IsRing(R) && RootFamily(R, roots, m) && s < m
    ensures Pow(R, roots[s + 1], Pow2(s) + i) == R.neg(Pow(R, roots[s + 1], i))
  {
    PowAdd(R, roots[s + 1], Pow2(s), i);
    MulComm(R, Pow(R, roots[s + 1], Pow2(s)), Pow(R, roots[s + 1], i));
    HalfTurn(R, roots, m, s);
    MulNeg(R, Pow(R, roots[s + 1], i), R.one);
    MulOne(R, Pow(R, roots[s + 1], i));
  }

  lemma SingletonEval<T(!new)>(R: Ring<T>, x: seq<T>)
    requires IsRing(R) && |x| == 1
    ensures Eval(R, x, R.one, 1) == x[0]
  {
    assert Eval(R, x, R.one, 1) == R.add(Eval(R, x, R.one, 0), R.mul(x[0], Pow(R, R.one, 0)));
    MulOne(R, x[0]);
    AddZero(R, x[0]);
  }
}
