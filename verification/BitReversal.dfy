/** The reversed-carry counter and the in-place permutation of FFT::apply (src/fft.cpp:25-35). */
module BitReversal {

  function Pow2(m: nat): (n: nat)
    ensures n >= 1
  {
    if m == 0 then 1 else 2 * Pow2(m - 1)
  }

  // `&` and `^` on unsigned words, bit by bit from the low end.
  function BitAnd(a: nat, b: nat): nat {
    if a == 0 || b == 0 then 0
    else 2 * BitAnd(a / 2, b / 2) + (if a % 2 == 1 && b % 2 == 1 then 1 else 0)
  }

  function BitXor(a: nat, b: nat): nat {
    if a == 0 then b
    else if b == 0 then a
    else 2 * BitXor(a / 2, b / 2) + (if a % 2 != b % 2 then 1 else 0)
  }

  /** Testing and flipping the top bit of a (k+1)-bit number. */
  lemma {:induction false} TopBit(k: nat, j: nat)
    requires j < Pow2(k + 1)
    ensures BitAnd(j, Pow2(k)) == if j >= Pow2(k) then Pow2(k) else 0
    ensures BitXor(j, Pow2(k)) == if j >= Pow2(k) then j - Pow2(k) else j + Pow2(k)
  {
    assert Pow2(k + 1) == 2 * Pow2(k);
    if k == 0 {
      assert j == 0 || j == 1;
      if j == 1 {
        assert BitAnd(0, 0) == 0 && BitXor(0, 0) == 0;
        assert BitAnd(1, 1) == 2 * BitAnd(0, 0) + 1;
      }
    } else {
      assert Pow2(k) == 2 * Pow2(k - 1);
      TopBit(k - 1, j / 2);
    }
  }

  /** The m-bit reversal of i: the low bit of i becomes the top bit of the result. */
  function Rev(m: nat, i: nat): (r: nat)
    ensures r < Pow2(m)
  {
    if m == 0 then 0 else (if i % 2 == 1 then Pow2(m - 1) else 0) + Rev(m - 1, i / 2)
  }

  /** Adding one at the top bit and carrying downwards. */
  function ReverseIncrement(m: nat, j: nat): nat {
    if m == 0 then 0
    else if j < Pow2(m - 1) then j + Pow2(m - 1)
    else ReverseIncrement(m - 1, j - Pow2(m - 1))
  }

  lemma {:induction false} RevSuccessor(m: nat, i: nat)
    requires i + 1 < Pow2(m)
    ensures Rev(m, i + 1) == ReverseIncrement(m, Rev(m, i))
    ensures Rev(m, i) < Pow2(m) - 1
  {
    if i % 2 == 0 {
      assert (i + 1) / 2 == i / 2;
    } else {
      assert (i + 1) / 2 == i / 2 + 1;
      RevSuccessor(m - 1, i / 2);
    }
  }

  /** Reversing a number puts its top bit at the low end. */
  lemma {:induction false} RevTopBit(m: nat, y: nat)
    requires m >= 1 && y < Pow2(m - 1)
    ensures Rev(m, y) == 2 * Rev(m - 1, y)
    ensures Rev(m, Pow2(m - 1) + y) == 2 * Rev(m - 1, y) + 1
  {
    if m == 1 {
      assert Rev(1, 0) == 0 && Rev(1, 1) == 1;
    } else {
      assert Pow2(m - 1) == 2 * Pow2(m - 2);
      assert (Pow2(m - 1) + y) / 2 == Pow2(m - 2) + y / 2;
      RevTopBit(m - 1, y / 2);
    }
  }

  /** Bit reversal undoes itself. */
  lemma {:induction false} RevInvolution(m: nat, i: nat)
    requires i < Pow2(m)
    ensures Rev(m, Rev(m, i)) == i
  {
    if m != 0 {
      RevInvolution(m - 1, i / 2);
      RevTopBit(m, Rev(m - 1, i / 2));
    }
  }

  function BitReverse<T>(m: nat, x: seq<T>): (y: seq<T>)
    requires |x| == Pow2(m)
    ensures |y| == |x|
  {
    seq(Pow2(m), i requires 0 <= i < Pow2(m) => x[Rev(m, i)])
  }

  /** Applying the permutation twice restores the input, so it loses nothing. */
  lemma BitReverseTwice<T>(m: nat, x: seq<T>)
    requires |x| == Pow2(m)
    ensures BitReverse(m, BitReverse(m, x)) == x
    ensures forall p :: 0 <= p < |x| ==> BitReverse(m, x)[Rev(m, p)] == x[p]
  {
    forall p | 0 <= p < |x|
      ensures Rev(m, Rev(m, p)) == p
    {
      RevInvolution(m, p);
    }
  }

  /** One pass of the inner `for (; (j & bit) != 0; bit >>= 1) j ^= bit;` followed by `j ^= bit`. */
  method CarryFromTop(m: nat, j0: nat) returns (j: nat)
    requires m >= 1 && j0 < Pow2(m) - 1
    ensures j == ReverseIncrement(m, j0)
  {
    j := j0;
    var bit := Pow2(m) / 2;
    ghost var k := m - 1;
    TopBit(k, j);
    while BitAnd(j, bit) != 0
      invariant k < m && bit == Pow2(k)
      invariant j < Pow2(k + 1) - 1
      invariant BitAnd(j, bit) == if j >= bit then bit else 0
      invariant BitXor(j, bit) == if j >= bit then j - bit else j + bit
      invariant ReverseIncrement(k + 1, j) == ReverseIncrement(m, j0)
      decreases k
    {
      assert k != 0;  // a one-bit j below 1 has no carry, so `bit` never reaches 0
      j := BitXor(j, bit);
      bit := bit / 2;
      k := k - 1;
      TopBit(k, j);
    }
    j := BitXor(j, bit);
  }

  /** Where the swaps for counters 1..i have put each element. */
  ghost predicate Swapped<T>(m: nat, i: nat, was: seq<T>, now: seq<T>)
  {
    && |was| == |now| == Pow2(m)
    && forall p :: 0 <= p < |was| ==>
         now[p] == if p < i || Rev(m, p) < i then was[Rev(m, p)] else was[p]
  }

  lemma SwapStep<T>(m: nat, i: nat, was: seq<T>, now: seq<T>, next: seq<T>)
    requires i < Pow2(m) && Swapped(m, i, was, now)
    requires var j := Rev(m, i); next == if i < j then now[i := now[j]][j := now[i]] else now
    ensures Swapped(m, i + 1, was, next)
  {
    var j := Rev(m, i);
    RevInvolution(m, i);
    forall p | 0 <= p < |was|
      ensures next[p] == if p < i + 1 || Rev(m, p) < i + 1 then was[Rev(m, p)] else was[p]
    {
      RevInvolution(m, p);
      assert p == i || p == j || next[p] == now[p];
    }
  }

  lemma {:induction false} RevZero(m: nat)
    ensures Rev(m, 0) == 0
  {
    if m != 0 {
      RevZero(m - 1);
    }
  }

  lemma SwapEnds<T>(m: nat, was: seq<T>, now: seq<T>)
    requires |was| == Pow2(m)
    ensures Swapped(m, 1, was, was)
    ensures Swapped(m, Pow2(m), was, now) ==> now == BitReverse(m, was)
  {
    RevZero(m);
    forall p | 0 <= p < |was|
      ensures Rev(m, p) == 0 ==> p == 0
    {
      RevInvolution(m, p);
    }
  }

  /** The whole permutation loop, for every power-of-two length. */
  method PermuteInPlace<T>(m: nat, data: array<T>)
    requires data.Length == Pow2(m)
    modifies data
    ensures data[..] == BitReverse(m, old(data[..]))
  {
    var n := data.Length;
    ghost var was := data[..];
    var i, j := 1, 0;
    RevZero(m);
    SwapEnds(m, was, was);
    while i < n
      invariant 1 <= i <= n == data.Length
      invariant j == Rev(m, i - 1)
      invariant Swapped(m, i, was, data[..])
    {
      RevSuccessor(m, i - 1);
      j := CarryFromTop(m, j);
      ghost var now := data[..];
      if i < j {
        data[i], data[j] := data[j], data[i];
      }
      assert data[..] == if i < j then now[i := now[j]][j := now[i]] else now;
      SwapStep(m, i, was, now, data[..]);
      i := i + 1;
    }
    SwapEnds(m, was, data[..]);
  }
}
