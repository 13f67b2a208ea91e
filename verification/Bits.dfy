/** Naturals as bit strings, least significant bit first. */
module Bits {

  function Pow2(k: nat): nat
    ensures Pow2(k) > 0
  {
    if k == 0 then 1 else 2 * Pow2(k - 1)
  }

  function ToNat(bits: seq<bool>): nat
  {
    if bits == [] then 0 else (if bits[0] then 1 else 0) + 2 * ToNat(bits[1..])
  }

  /** The low `n` bits of `r`. */
  function LowBits(r: nat, n: nat): (bits: seq<bool>)
    ensures |bits| == n
    decreases n
  {
    if n == 0 then [] else [r % 2 == 1] + LowBits(r / 2, n - 1)
  }

  function Zeros(n: nat): (z: seq<bool>)
    ensures |z| == n && forall i :: 0 <= i < n ==> !z[i]
  {
    seq(n, _ => false)
  }

  lemma {:induction false} ToNatBound(bits: seq<bool>)
    ensures ToNat(bits) < Pow2(|bits|)
  {
    if bits != [] {
      ToNatBound(bits[1..]);
    }
  }

  /** Writing a bit string as a number and reading it back only pads it. */
  lemma {:induction false} LowBitsToNat(bits: seq<bool>, n: nat)
    requires |bits| <= n
    ensures LowBits(ToNat(bits), n) == bits + Zeros(n - |bits|)
    decreases n
  {
    if bits == [] {
      if n > 0 {
        LowBitsToNat([], n - 1);
      }
    } else {
      LowBitsToNat(bits[1..], n - 1);
    }
  }

  lemma {:induction false} LowBitsSplit(r: nat, m: nat, n: nat)
    requires r < Pow2(m)
    ensures LowBits(r, m + n) == LowBits(r, m) + Zeros(n)
    decreases m
  {
    if m == 0 {
      LowBitsToNat([], n);
    } else {
      LowBitsSplit(r / 2, m - 1, n);
    }
  }

  lemma {:induction false} ToNatLowBits(r: nat, n: nat)
    requires r < Pow2(n)
    ensures ToNat(LowBits(r, n)) == r
    decreases n
  {
    if n > 0 {
      ToNatLowBits(r / 2, n - 1);
      assert LowBits(r, n)[1..] == LowBits(r / 2, n - 1);
    }
  }

  lemma PowersOfTwo()
    ensures Pow2(7) == 0x80 && Pow2(8) == 0x100 && Pow2(21) == 0x20_0000 && Pow2(28) == 0x1000_0000
            && Pow2(32) == 0x1_0000_0000
  {
    assert Pow2(8) == 0x100;
    assert Pow2(16) == 0x1_0000;
    assert Pow2(24) == 0x100_0000;
  }

  /** Bitwise or of naturals. */
  function Or(a: nat, b: nat): nat
    decreases a + b
  {
    if a == 0 && b == 0 then 0 else (if a % 2 == 1 || b % 2 == 1 then 1 else 0) + 2 * Or(a / 2, b / 2)
  }

  lemma OrStep(x: nat, a: nat, b: nat)
    requires x <= 1
    ensures Or(2 * a + x, 2 * b) == x + 2 * Or(a, b)
  {
    assert (2 * a + x) / 2 == a && (2 * a + x) % 2 == x;
    assert 2 * b / 2 == b && 2 * b % 2 == 0;
  }

  lemma {:induction false} OrZero(b: nat)
    ensures Or(0, b) == b
  {
    if b > 0 {
      OrZero(b / 2);
    }
  }

  /** On disjoint bit ranges, or is addition. */
  lemma {:induction false} DisjointOr(a: nat, b: nat, k: nat)
    requires a < Pow2(k)
    ensures Or(a, Pow2(k) * b) == a + Pow2(k) * b
    decreases k
  {
    if k == 0 {
      OrZero(b);
      assert Pow2(0) * b == b;
    } else {
      hide Or;
      var c := Pow2(k - 1) * b;
      assert Pow2(k) * b == 2 * c by { assert Pow2(k) == 2 * Pow2(k - 1); }
      OrStep(a % 2, a / 2, c);
      DisjointOr(a / 2, b, k - 1);
    }
  }

  lemma {:induction false} Pow2Add(m: nat, n: nat)
    ensures Pow2(m + n) == Pow2(m) * Pow2(n)
    decreases n
  {
    if n > 0 {
      Pow2Add(m, n - 1);
      assert Pow2(m) * (2 * Pow2(n - 1)) == 2 * (Pow2(m) * Pow2(n - 1));
    }
  }
}
