/** The loops of FFT::apply (src/fft.cpp:18-51), in place on an array of any power-of-two length. */
module Fft {
  import opened Rings
  import opened BitReversal
  import opened Fourier

  // ---------------------------------------------------------------- alignment

  /** n is a multiple of size. */
  ghost predicate Aligned(n: nat, size: nat)
    requires size >= 1
  {
    n == 0 || (n >= size && Aligned(n - size, size))
  }

  lemma {:induction false} AlignedAdd(a: nat, b: nat, size: nat)
    requires size >= 1 && Aligned(a, size) && Aligned(b, size)
    ensures Aligned(a + b, size)
  {
    if a != 0 {
      AlignedAdd(a - size, b, size);
    }
  }

  lemma {:induction false} AlignedHalf(n: nat, half: nat)
    requires half >= 1 && Aligned(n, 2 * half)
    ensures Aligned(n, half)
  {
    if n != 0 {
      AlignedHalf(n - 2 * half, half);
      assert Aligned(n - half, half);
    }
  }

  /** Distinct aligned positions are at least one block apart. */
  lemma {:induction false} AlignedApart(a: nat, b: nat, size: nat)
    requires size >= 1 && Aligned(a, size) && Aligned(b, size) && a < b
    ensures a + size <= b
  {
    if a != 0 {
      AlignedApart(a - size, b - size, size);
    }
  }

  lemma {:induction false} AlignedPow2(s: nat, m: nat)
    requires s <= m
    ensures Aligned(Pow2(m), Pow2(s))
  {
    if s == m {
      assert Aligned(0, Pow2(s));
    } else {
      AlignedPow2(s, m - 1);
      AlignedAdd(Pow2(m - 1), Pow2(m - 1), Pow2(s));
    }
  }

  // ---------------------------------------------------------------- what each cell must hold

  /** Element i of the block of size 2^s that starts at position `off` of z, after stage s. */
  function Cell<T>(R: Ring<T>, roots: seq<T>, s: nat, z: seq<T>, off: nat, i: nat): T
    requires |roots| > s && i < Pow2(s) && off + Pow2(s) <= |z|
  {
    if s == 0 then z[off]
    else
      var h := Pow2(s - 1);
      var k := if i < h then i else i - h;
      var even := Cell(R, roots, s - 1, z, off, k);
      var odd := R.mul(Cell(R, roots, s - 1, z, off + h, k), Pow(R, roots[s], k));
      if i < h then R.add(even, odd) else R.Sub(even, odd)
  }

  ghost predicate LoadedAt<T>(s: nat, z: seq<T>, off: nat, y: seq<T>, j: nat)
    requires |y| == Pow2(s) && off + Pow2(s) <= |z|
  {
    j < Pow2(s) ==> z[off + j] == y[Rev(s, j)]
  }

  /** The block of z at `off` is y in bit-reversed order. */
  ghost predicate Loaded<T>(s: nat, z: seq<T>, off: nat, y: seq<T>) {
    |y| == Pow2(s) && off + Pow2(s) <= |z| && forall j: nat :: LoadedAt(s, z, off, y, j)
  }

  /** Bit reversal is the order in which repeated even/odd splitting leaves the samples. */
  lemma LoadedHalves<T>(s: nat, z: seq<T>, off: nat, y: seq<T>, h: nat)
    requires s >= 1 && h == Pow2(s - 1) && Loaded(s, z, off, y)
    ensures Loaded(s - 1, z, off, Evens(y)) && Loaded(s - 1, z, off + h, Odds(y))
  {
    var t, e, o := s - 1, Evens(y), Odds(y);
    assert |e| == |o| == h;
    forall j: nat
      ensures LoadedAt(t, z, off, e, j)
    {
      if j < h {
        RevTopBit(s, j);
        assert LoadedAt(s, z, off, y, j);
      }
    }
    var off' := off + h;
    forall j: nat
      ensures LoadedAt(t, z, off', o, j)
    {
      if j < h {
        RevTopBit(s, j);
        assert LoadedAt(s, z, off, y, h + j);
        assert off + (h + j) == off' + j;
      }
    }
  }

  /** A finished cell from the two it was made of. */
  lemma CellFromHalves<T>(R: Ring<T>, roots: seq<T>, s: nat, z: seq<T>, off: nat,
                          y: seq<T>, e: seq<T>, o: seq<T>, h: nat, k: nat, i: nat)
    requires |roots| > s >= 1 && h == Pow2(s - 1) == |e| == |o| && |y| == Pow2(s) == 2 * h
    requires off + Pow2(s) <= |z| && k < h && (i == k || i == h + k)
    requires Cell(R, roots, s - 1, z, off, k) == Eval(R, e, Pow(R, roots[s - 1], k), h)
    requires Cell(R, roots, s - 1, z, off + h, k) == Eval(R, o, Pow(R, roots[s - 1], k), h)
    requires Butterfly(R, roots[s], roots[s - 1], y, e, o, k)
    ensures Cell(R, roots, s, z, off, i) == Eval(R, y, Pow(R, roots[s], i), |y|)
  {
  }

  /** After stage s, a block loaded with the samples y holds the Fourier transform of y. */
  lemma {:induction false} CellIsEval<T(!new)>(R: Ring<T>, roots: seq<T>, m: nat, s: nat, z: seq<T>, off: nat,
                                              y: seq<T>, i: nat)
    requires IsRing(R) && RootFamily(R, roots, m) && s <= m
    requires Loaded(s, z, off, y) && i < Pow2(s)
    ensures Cell(R, roots, s, z, off, i) == Eval(R, y, Pow(R, roots[s], i), |y|)
  {
    if s == 0 {
      assert LoadedAt(0, z, off, y, 0);
      SingletonEval(R, y);
    } else {
      var h := Pow2(s - 1);
      var e, o, k := Evens(y), Odds(y), if i < h then i else i - h;
      LoadedHalves(s, z, off, y, h);
      CellIsEval(R, roots, m, s - 1, z, off, e, k);
      CellIsEval(R, roots, m, s - 1, z, off + h, o, k);
      CellFromEvals(R, roots, m, s, z, off, y, h, k, i);
    }
  }

  lemma CellFromEvals<T(!new)>(R: Ring<T>, roots: seq<T>, m: nat, s: nat, z: seq<T>, off: nat,
                               y: seq<T>, h: nat, k: nat, i: nat)
    requires IsRing(R) && RootFamily(R, roots, m) && 1 <= s <= m && h == Pow2(s - 1)
    requires |y| == Pow2(s) && off + Pow2(s) <= |z| && k < h && (i == k || i == h + k)
    requires Cell(R, roots, s - 1, z, off, k) == Eval(R, Evens(y), Pow(R, roots[s - 1], k), |Evens(y)|)
    requires Cell(R, roots, s - 1, z, off + h, k) == Eval(R, Odds(y), Pow(R, roots[s - 1], k), |Odds(y)|)
    ensures Cell(R, roots, s, z, off, i) == Eval(R, y, Pow(R, roots[s], i), |y|)
  {
    assert |Evens(y)| == |Odds(y)| == h;
    ButterflyAt(R, roots, m, s - 1, y, k);
    CellFromHalves(R, roots, s, z, off, y, Evens(y), Odds(y), h, k, i);
  }

  ghost predicate Finished<T>(R: Ring<T>, roots: seq<T>, s: nat, z: seq<T>, now: seq<T>, off: nat, i: nat)
    requires |roots| > s && |now| == |z|
  {
    Aligned(off, Pow2(s)) && off + Pow2(s) <= |z| && i < Pow2(s) ==>
      now[off + i] == Cell(R, roots, s, z, off, i)
  }

  /** Stage s is finished in every block that starts in [lo, hi). */
  ghost predicate StageDone<T>(R: Ring<T>, roots: seq<T>, s: nat, z: seq<T>, now: seq<T>, lo: nat, hi: nat)
    requires |roots| > s
  {
    |now| == |z| && forall off: nat, i: nat :: lo <= off < hi ==> Finished(R, roots, s, z, now, off, i)
  }

  // ---------------------------------------------------------------- one block

  /** Butterfly k of the block at `base`. */
  ghost predicate ButterflyDone<T>(R: Ring<T>, w: T, was: seq<T>, now: seq<T>, base: nat, half: nat, k: nat)
    requires |was| == |now| && base + 2 * half <= |was|
  {
    k < half ==>
      var odd := R.mul(was[base + half + k], Pow(R, w, k));
      now[base + k] == R.add(was[base + k], odd) && now[base + half + k] == R.Sub(was[base + k], odd)
  }

  ghost predicate BlockDone<T>(R: Ring<T>, w: T, was: seq<T>, now: seq<T>, base: nat, half: nat) {
    && |was| == |now| && base + 2 * half <= |was|
    && (forall i :: 0 <= i < |was| && !(base <= i < base + 2 * half) ==> now[i] == was[i])
    && forall k: nat :: ButterflyDone(R, w, was, now, base, half, k)
  }

  /** The `k` loop of one block (src/fft.cpp:42-49). */
  method ButterflyBlock<T>(R: Ring<T>, wLen: T, data: array<T>, base: nat, half: nat)
    requires base + 2 * half <= data.Length
    modifies data
    ensures BlockDone(R, wLen, old(data[..]), data[..], base, half)
  {
    ghost var was := data[..];
    var w, k := R.one, 0;
    while k < half
      invariant 0 <= k <= half
      invariant w == Pow(R, wLen, k)
      invariant forall i :: 0 <= i < data.Length && !(base <= i < base + k || base + half <= i < base + half + k)
                  ==> data[i] == was[i]
      invariant forall p: nat :: p < k ==> ButterflyDone(R, wLen, was, data[..], base, half, p)
    {
      ghost var before := data[..];
      var even := data[base + k];
      var odd := R.mul(data[base + k + half], w);
      data[base + k] := R.add(even, odd);
      data[base + k + half] := R.Sub(even, odd);
      assert ButterflyDone(R, wLen, was, data[..], base, half, k);
      forall p: nat | p < k
        ensures ButterflyDone(R, wLen, was, data[..], base, half, p)
      {
        assert ButterflyDone(R, wLen, was, before, base, half, p);
      }
      w := R.mul(w, wLen);
      k := k + 1;
    }
  }

  // ---------------------------------------------------------------- one stage

  lemma CellStep<T>(R: Ring<T>, roots: seq<T>, s: nat, z: seq<T>, was: seq<T>, now: seq<T>, base: nat, i: nat)
    requires |roots| > s >= 1 && |now| == |z| && base + Pow2(s) <= |z| && i < Pow2(s)
    requires Aligned(base, Pow2(s - 1)) && Aligned(base + Pow2(s - 1), Pow2(s - 1))
    requires StageDone(R, roots, s - 1, z, was, base, |z|)
    requires BlockDone(R, roots[s], was, now, base, Pow2(s - 1))
    ensures now[base + i] == Cell(R, roots, s, z, base, i)
  {
    var h := Pow2(s - 1);
    var k := if i < h then i else i - h;
    assert Finished(R, roots, s - 1, z, was, base, k);
    assert Finished(R, roots, s - 1, z, was, base + h, k);
    assert ButterflyDone(R, roots[s], was, now, base, h, k);
    assert base + i == if i < h then base + k else base + h + k;
    assert (base + h) + k == base + h + k;
  }

  lemma OtherBlock<T>(R: Ring<T>, roots: seq<T>, s: nat, z: seq<T>, w: T, was: seq<T>, now: seq<T>,
                      base: nat, half: nat, off: nat, i: nat)
    requires |roots| > s && |was| == |z| && BlockDone(R, w, was, now, base, half)
    requires off + Pow2(s) <= base || base + 2 * half <= off
    requires Finished(R, roots, s, z, was, off, i)
    ensures Finished(R, roots, s, z, now, off, i)
  {
  }

  lemma FinishedStep<T>(R: Ring<T>, roots: seq<T>, s: nat, z: seq<T>, was: seq<T>, now: seq<T>,
                        base: nat, half: nat, off: nat, i: nat)
    requires |roots| > s >= 1 && |was| == |z| && Pow2(s) == 2 * half && half == Pow2(s - 1)
    requires Aligned(base, 2 * half) && off < base + 2 * half
    requires StageDone(R, roots, s, z, was, 0, base) && StageDone(R, roots, s - 1, z, was, base, |z|)
    requires BlockDone(R, roots[s], was, now, base, half)
    ensures Finished(R, roots, s, z, now, off, i)
  {
    if Aligned(off, 2 * half) {
      if off < base {
        AlignedApart(off, base, 2 * half);
        assert Finished(R, roots, s, z, was, off, i);
        OtherBlock(R, roots, s, z, roots[s], was, now, base, half, off, i);
      } else {
        if base < off {
          AlignedApart(base, off, 2 * half);
        }
        AlignedHalf(base, half);
        AlignedAdd(half, base, half);
        if i < 2 * half {
          CellStep(R, roots, s, z, was, now, base, i);
        }
      }
    }
  }

  /** One block later: it is finished, and no other block has changed. */
  lemma BlockStep<T>(R: Ring<T>, roots: seq<T>, s: nat, z: seq<T>, was: seq<T>, now: seq<T>,
                     base: nat, half: nat, next: nat)
    requires |roots| > s >= 1 && |was| == |z| && Pow2(s) == 2 * half && half == Pow2(s - 1)
    requires Aligned(base, 2 * half) && next == base + 2 * half
    requires StageDone(R, roots, s, z, was, 0, base) && StageDone(R, roots, s - 1, z, was, base, |z|)
    requires BlockDone(R, roots[s], was, now, base, half)
    ensures StageDone(R, roots, s, z, now, 0, next) && StageDone(R, roots, s - 1, z, now, next, |z|)
  {
    forall off: nat, i: nat | off < next
      ensures Finished(R, roots, s, z, now, off, i)
    {
      FinishedStep(R, roots, s, z, was, now, base, half, off, i);
    }
    var t := s - 1;
    forall off: nat, i: nat | next <= off < |z|
      ensures Finished(R, roots, t, z, now, off, i)
    {
      assert Finished(R, roots, t, z, was, off, i);
      OtherBlock(R, roots, t, z, roots[s], was, now, base, half, off, i);
    }
  }

  /** The `base` loop: one full stage (src/fft.cpp:41-50). */
  method Stage<T>(R: Ring<T>, roots: seq<T>, s: nat, data: array<T>, len: nat, ghost z: seq<T>)
    requires |roots| > s >= 1 && len == Pow2(s) && data.Length == |z| && Aligned(|z|, len)
    requires StageDone(R, roots, s - 1, z, data[..], 0, |z|)
    modifies data
    ensures StageDone(R, roots, s, z, data[..], 0, |z|)
  {
    var base := 0;
    while base < data.Length
      invariant base <= data.Length && Aligned(base, len)
      invariant StageDone(R, roots, s, z, data[..], 0, base)
      invariant StageDone(R, roots, s - 1, z, data[..], base, |z|)
    {
      AlignedApart(base, data.Length, len);
      ghost var was := data[..];
      var half := len / 2;
      assert half == Pow2(s - 1) && 2 * half == len;
      ButterflyBlock(R, roots[s], data, base, half);
      BlockStep(R, roots, s, z, was, data[..], base, half, base + len);
      base := base + len;
    }
  }

  // ---------------------------------------------------------------- all stages

  lemma {:induction false} Pow2Order(s: nat, m: nat)
    ensures s < m ==> Pow2(s) < Pow2(m)
  {
    if s < m {
      Pow2Order(s, m - 1);
    }
  }

  lemma FirstStage<T>(R: Ring<T>, roots: seq<T>, z: seq<T>)
    requires |roots| > 0
    ensures StageDone(R, roots, 0, z, z, 0, |z|)
  {
    forall off: nat, i: nat | off < |z|
      ensures Finished(R, roots, 0, z, z, off, i)
    {
    }
  }

  lemma LoadedWhole<T>(m: nat, x: seq<T>)
    requires |x| == Pow2(m)
    ensures Loaded(m, BitReverse(m, x), 0, x)
  {
    var z := BitReverse(m, x);
    forall j: nat
      ensures LoadedAt(m, z, 0, x, j)
    {
    }
  }

  lemma LastStage<T(!new)>(R: Ring<T>, roots: seq<T>, m: nat, x: seq<T>, now: seq<T>)
    requires IsRing(R) && RootFamily(R, roots, m) && |x| == Pow2(m)
    requires StageDone(R, roots, m, BitReverse(m, x), now, 0, |x|)
    ensures now == Bins(R, roots[m], x)
  {
    var z, y := BitReverse(m, x), Bins(R, roots[m], x);
    forall i | 0 <= i < |z|
      ensures now[i] == y[i]
    {
      assert Finished(R, roots, m, z, now, 0, i);
      LoadedWhole(m, x);
      CellIsEval(R, roots, m, m, z, 0, x, i);
    }
  }

  /** The `len` loop (src/fft.cpp:38-51). */
  method Stages<T>(R: Ring<T>, roots: seq<T>, m: nat, data: array<T>)
    requires |roots| > m && data.Length == Pow2(m)
    modifies data
    ensures StageDone(R, roots, m, old(data[..]), data[..], 0, data.Length)
  {
    ghost var z := data[..];
    FirstStage(R, roots, z);
    var n, len, s := data.Length, 2, 1;
    while len <= n
      invariant 1 <= s <= m + 1 && len == Pow2(s)
      invariant StageDone(R, roots, s - 1, z, data[..], 0, |z|)
      decreases m + 1 - s
    {
      Pow2Order(m, s);
      AlignedPow2(s, m);
      Stage(R, roots, s, data, len, z);
      len := 2 * len;
      s := s + 1;
    }
    Pow2Order(s, m);
  }

  /** FFT::apply up to the magnitudes: in place, the array becomes its discrete Fourier transform. */
  method Transform<T(!new)>(R: Ring<T>, roots: seq<T>, m: nat, data: array<T>)
    requires IsRing(R) && RootFamily(R, roots, m)
    requires data.Length == Pow2(m)
    modifies data
    ensures data[..] == Dft(R, roots[m], old(data[..]))
  {
    ghost var x := data[..];
    PermuteInPlace(m, data);
    Stages(R, roots, m, data);
    LastStage(R, roots, m, x, data[..]);
    BinsAreDft(R, roots[m], x);
  }
}
