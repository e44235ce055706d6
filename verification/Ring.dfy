/** Commutative rings as values, so that the transform can be proved once for every exact number
    system.  `std::complex<float>` is replaced by an arbitrary ring in which the needed roots exist. */
module Rings {

  datatype Ring<!T> = Ring(
    zero: T,
    one: T,
    add: (T, T) -> T,
    neg: T -> T,
    mul: (T, T) -> T)
  {
    function Sub(x: T, y: T): T {
      add(x, neg(y))
    }
  }

  datatype Law = AddAssociates | AddCommutes | AddUnit | AddInverse
               | MulAssociates | MulCommutes | MulUnit | Distributes

  ghost predicate Holds<T(!new)>(R: Ring<T>, law: Law, x: T, y: T, z: T) {
    match law
    case AddAssociates => R.add(R.add(x, y), z) == R.add(x, R.add(y, z))
    case AddCommutes => R.add(x, y) == R.add(y, x)
    case AddUnit => R.add(x, R.zero) == x
    case AddInverse => R.add(x, R.neg(x)) == R.zero
    case MulAssociates => R.mul(R.mul(x, y), z) == R.mul(x, R.mul(y, z))
    case MulCommutes => R.mul(x, y) == R.mul(y, x)
    case MulUnit => R.mul(x, R.one) == x
    case Distributes => R.mul(x, R.add(y, z)) == R.add(R.mul(x, y), R.mul(x, z))
  }

  // Each law is reached only through `Holds`, which keeps the commutative laws from rewriting forever.
  ghost predicate IsRing<T(!new)>(R: Ring<T>) {
    forall law, x, y, z :: Holds(R, law, x, y, z)
  }

  lemma AddAssoc<T(!new)>(R: Ring<T>, x: T, y: T, z: T)
    requires IsRing(R)
    ensures R.add(R.add(x, y), z) == R.add(x, R.add(y, z))
  {
    assert Holds(R, AddAssociates, x, y, z);
  }

  lemma AddComm<T(!new)>(R: Ring<T>, x: T, y: T)
    requires IsRing(R)
    ensures R.add(x, y) == R.add(y, x)
  {
    assert Holds(R, AddCommutes, x, y, x);
  }

  lemma AddZero<T(!new)>(R: Ring<T>, x: T)
    requires IsRing(R)
    ensures R.add(x, R.zero) == x
    ensures R.add(R.zero, x) == x
  {
    assert Holds(R, AddUnit, x, x, x);
    AddComm(R, x, R.zero);
  }

  lemma AddNeg<T(!new)>(R: Ring<T>, x: T)
    requires IsRing(R)
    ensures R.add(x, R.neg(x)) == R.zero
  {
    assert Holds(R, AddInverse, x, x, x);
  }

  lemma MulAssoc<T(!new)>(R: Ring<T>, x: T, y: T, z: T)
    requires IsRing(R)
    ensures R.mul(R.mul(x, y), z) == R.mul(x, R.mul(y, z))
  {
    assert Holds(R, MulAssociates, x, y, z);
  }

  lemma MulComm<T(!new)>(R: Ring<T>, x: T, y: T)
    requires IsRing(R)
    ensures R.mul(x, y) == R.mul(y, x)
  {
    assert Holds(R, MulCommutes, x, y, x);
  }

  lemma MulOne<T(!new)>(R: Ring<T>, x: T)
    requires IsRing(R)
    ensures R.mul(x, R.one) == x
    ensures R.mul(R.one, x) == x
  {
    assert Holds(R, MulUnit, x, x, x);
    MulComm(R, x, R.one);
  }

  lemma Distrib<T(!new)>(R: Ring<T>, x: T, y: T, z: T)
    requires IsRing(R)
    ensures R.mul(x, R.add(y, z)) == R.add(R.mul(x, y), R.mul(x, z))
  {
    assert Holds(R, Distributes, x, y, z);
  }

  /** (a + b) + (c + d) == (a + c) + (b + d) */
  lemma AddSwapMiddle<T(!new)>(R: Ring<T>, a: T, b: T, c: T, d: T)
    requires IsRing(R)
    ensures R.add(R.add(a, b), R.add(c, d)) == R.add(R.add(a, c), R.add(b, d))
  {
    AddAssoc(R, a, b, R.add(c, d));
    AddAssoc(R, b, c, d);
    AddComm(R, b, c);
    AddAssoc(R, c, b, d);
    AddAssoc(R, a, c, R.add(b, d));
  }

  /** x * (y * z) == y * (x * z) */
  lemma MulSwap<T(!new)>(R: Ring<T>, x: T, y: T, z: T)
    requires IsRing(R)
    ensures R.mul(x, R.mul(y, z)) == R.mul(y, R.mul(x, z))
  {
    MulAssoc(R, x, y, z);
    MulComm(R, x, y);
    MulAssoc(R, y, x, z);
  }

  lemma CancelSelf<T(!new)>(R: Ring<T>, x: T)
    requires IsRing(R)
    requires R.add(x, x) == x
    ensures x == R.zero
  {
    AddAssoc(R, x, x, R.neg(x));
    AddNeg(R, x);
    AddZero(R, x);
  }

  lemma MulZero<T(!new)>(R: Ring<T>, x: T)
    requires IsRing(R)
    ensures R.mul(x, R.zero) == R.zero
    ensures R.mul(R.zero, x) == R.zero
  {
    AddZero(R, R.zero);
    Distrib(R, x, R.zero, R.zero);
    CancelSelf(R, R.mul(x, R.zero));
    MulComm(R, x, R.zero);
  }

  /** Inverses are unique. */
  lemma NegUnique<T(!new)>(R: Ring<T>, x: T, y: T)
    requires IsRing(R)
    requires R.add(x, y) == R.zero
    ensures y == R.neg(x)
  {
    AddComm(R, x, y);
    AddAssoc(R, y, x, R.neg(x));
    AddNeg(R, x);
    AddZero(R, y);
    AddZero(R, R.neg(x));
  }

  /** x * -y == -(x * y) */
  lemma MulNeg<T(!new)>(R: Ring<T>, x: T, y: T)
    requires IsRing(R)
    ensures R.mul(x, R.neg(y)) == R.neg(R.mul(x, y))
  {
    Distrib(R, x, y, R.neg(y));
    AddNeg(R, y);
    MulZero(R, x);
    NegUnique(R, R.mul(x, y), R.mul(x, R.neg(y)));
  }

  lemma NegSquare<T(!new)>(R: Ring<T>, x: T)
    requires IsRing(R)
    ensures R.mul(R.neg(x), R.neg(x)) == R.mul(x, x)
  {
    MulNeg(R, R.neg(x), x);
    MulComm(R, R.neg(x), x);
    MulNeg(R, x, x);
    AddNeg(R, R.mul(x, x));
    AddComm(R, R.mul(x, x), R.neg(R.mul(x, x)));
    NegUnique(R, R.neg(R.mul(x, x)), R.mul(x, x));
  }

  function Pow<T>(R: Ring<T>, w: T, k: nat): T {
    if k == 0 then R.one else R.mul(Pow(R, w, k - 1), w)
  }

  lemma {:induction false} PowAdd<T(!new)>(R: Ring<T>, w: T, a: nat, b: nat)
    requires IsRing(R)
    ensures Pow(R, w, a + b) == R.mul(Pow(R, w, a), Pow(R, w, b))
  {
    if b == 0 {
      MulOne(R, Pow(R, w, a));
    } else {
      PowAdd(R, w, a, b - 1);
      assert Pow(R, w, a + b) == R.mul(Pow(R, w, a + (b - 1)), w);
      MulAssoc(R, Pow(R, w, a), Pow(R, w, b - 1), w);
    }
  }

  lemma {:induction false} PowSquare<T(!new)>(R: Ring<T>, w: T, k: nat)
    requires IsRing(R)
    ensures Pow(R, R.mul(w, w), k) == Pow(R, w, 2 * k)
  {
    if k != 0 {
      PowSquare(R, w, k - 1);
      assert Pow(R, w, 2 * k) == R.mul(R.mul(Pow(R, w, 2 * (k - 1)), w), w);
      MulAssoc(R, Pow(R, w, 2 * (k - 1)), w, w);
    }
  }

  /** w^(j*k) == (w^k)^j */
  lemma {:induction false} PowMul<T(!new)>(R: Ring<T>, w: T, k: nat, j: nat)
    requires IsRing(R)
    ensures Pow(R, w, j * k) == Pow(R, Pow(R, w, k), j)
  {
    if j != 0 {
      PowMul(R, w, k, j - 1);
      assert j * k == (j - 1) * k + k;
      PowAdd(R, w, (j - 1) * k, k);
    }
  }

  /** (x*y)^k == x^k * y^k */
  lemma {:induction false} PowProduct<T(!new)>(R: Ring<T>, x: T, y: T, k: nat)
    requires IsRing(R)
    ensures Pow(R, R.mul(x, y), k) == R.mul(Pow(R, x, k), Pow(R, y, k))
  {
    if k == 0 {
      MulOne(R, R.one);
    } else {
      PowProduct(R, x, y, k - 1);
      var a, b := Pow(R, x, k - 1), Pow(R, y, k - 1);
      MulAssoc(R, a, b, R.mul(x, y));
      MulSwap(R, b, x, y);
      MulAssoc(R, a, x, R.mul(b, y));
    }
  }
}
