/** The integers modulo 257, where 3 generates all 256 non-zero residues: a small exact number system
    that has the roots a 256-sample transform needs. */
module Residues {
  import opened Rings
  import opened BitReversal
  import opened Fourier

  const P := 257

  type Residue = r: int | 0 <= r < P

  function Add(x: Residue, y: Residue): (r: Residue)
    ensures r == (x + y) % P
  {
    if x + y < P then x + y else x + y - P
  }

  function Neg(x: Residue): Residue { if x == 0 then 0 else P - x }

  function Mul(x: Residue, y: Residue): Residue { x * y % P }

  function Z257(): Ring<Residue> {
    Ring(0, 1, Add, Neg, Mul)
  }

  // 3^256, 3^128, 3^64, ..., 3^2, 3^1 modulo 257.
  const ROOTS: seq<Residue> := [1, 256, 241, 64, 249, 136, 81, 9, 3]

  lemma ModMul(a: int, b: int)
    ensures a % P * b % P == a * b % P
  {
    var q := a / P;
    assert a == P * q + a % P;
    assert a * b == P * (q * b) + a % P * b;
    ModShift(q * b, a % P * b);
  }

  lemma ModShift(k: int, r: int)
    ensures (P * k + r) % P == r % P
  {
  }

  lemma MulAssociative(x: Residue, y: Residue, z: Residue)
    ensures Mul(Mul(x, y), z) == Mul(x, Mul(y, z))
  {
    ModMul(x * y, z);
    ModMul(y * z, x);
    assert x * y * z == y * z * x;
    assert y * z % P * x == x * (y * z % P);
  }

  lemma MulDistributes(x: Residue, y: Residue, z: Residue)
    ensures Mul(x, Add(y, z)) == Add(Mul(x, y), Mul(x, z))
  {
    ModMul(y + z, x);
    assert (y + z) % P * x == x * ((y + z) % P);
    assert (y + z) * x == x * y + x * z;
    ModAdd(x * y, x * z);
  }

  lemma ModAdd(a: int, b: int)
    ensures (a % P + b % P) % P == (a + b) % P
  {
    ModShift(a / P + b / P, a % P + b % P);
  }

  lemma AdditiveLaws(x: Residue, y: Residue, z: Residue)
    ensures Add(Add(x, y), z) == Add(x, Add(y, z))
    ensures Add(x, y) == Add(y, x) && Add(x, 0) == x && Add(x, Neg(x)) == 0
  {
  }

  lemma Z257IsRing()
    ensures IsRing(Z257())
  {
    forall law, x: Residue, y: Residue, z: Residue
      ensures Holds(Z257(), law, x, y, z)
    {
      LawAt(law, x, y, z);
    }
  }

  lemma LawAt(law: Law, x: Residue, y: Residue, z: Residue)
    ensures Holds(Z257(), law, x, y, z)
  {
    match law
    case MulAssociates => MulAssociative(x, y, z);
    case Distributes => MulDistributes(x, y, z);
    case MulCommutes => assert Mul(x, y) == Mul(y, x);
    case MulUnit => assert Mul(x, 1) == x;
    case _ => AdditiveLaws(x, y, z);
  }

  /** The hypotheses of the transform are met at the length the program uses. */
  lemma RootsFor256()
    ensures IsRing(Z257()) && RootFamily(Z257(), ROOTS, 8) && Pow2(8) == 256
  {
    Z257IsRing();
    var R := Z257();
    forall s | 0 <= s < 8
      ensures IsSquareOf(R, ROOTS, s)
    {
      assert R.mul(ROOTS[s + 1], ROOTS[s + 1]) == ROOTS[s + 1] * ROOTS[s + 1] % P;
      assert s == 0 || s == 1 || s == 2 || s == 3 || s == 4 || s == 5 || s == 6 || s == 7;
    }
    assert Pow2(4) == 16;
    assert Pow2(8) == 16 * Pow2(4);
  }
}
