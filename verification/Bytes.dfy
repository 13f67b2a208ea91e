/** Bytes, big-endian words and the few sequence facts every decoder needs. */
module Bytes {

  type byte = x: int | 0 <= x < 256

  type u32 = x: int | 0 <= x < 0x1_0000_0000

  datatype Option<+T> = None | Some(value: T)

  datatype Result<+T> = Ok(value: T) | Err(error: string)

  const HALF: nat := 2
  const WORD: nat := 4

  /** Big-endian value of a byte string. */
  function Be(b: seq<byte>): nat
  {
    if b == [] then 0 else Be(b[..|b| - 1]) * 0x100 + b[|b| - 1]
  }

  function ToBe(n: nat, width: nat): (b: seq<byte>)
    ensures |b| == width
    decreases width
  {
    if width == 0 then [] else ToBe(n / 0x100, width - 1) + [n % 0x100]
  }

  function Pow256(k: nat): nat
  {
    if k == 0 then 1 else 0x100 * Pow256(k - 1)
  }

  lemma {:induction false} BeBound(b: seq<byte>)
    ensures Be(b) < Pow256(|b|)
  {
    if b != [] {
      BeBound(b[..|b| - 1]);
    }
  }

  lemma {:induction false} BeToBe(n: nat, width: nat)
    requires n < Pow256(width)
    ensures Be(ToBe(n, width)) == n
    decreases width
  {
    if width > 0 {
      BeToBe(n / 0x100, width - 1);
      assert ToBe(n, width)[..width - 1] == ToBe(n / 0x100, width - 1);
    }
  }

  lemma {:induction false} ToBeBe(b: seq<byte>)
    ensures ToBe(Be(b), |b|) == b
  {
    if b != [] {
      ToBeBe(b[..|b| - 1]);
      assert b == b[..|b| - 1] + [b[|b| - 1]];
    }
  }

  lemma Widths()
    ensures Pow256(HALF) == 0x1_0000 && Pow256(WORD) == 0x1_0000_0000
  {
    assert Pow256(2) == 0x1_0000;
  }

  /** The 32-bit big-endian word at offset `i`. */
  function U32(b: seq<byte>, i: nat): u32
    requires i + 4 <= |b|
  {
    BeBound(b[i..i + WORD]);
    Widths();
    Be(b[i..i + WORD])
  }

  function U16(b: seq<byte>, i: nat): (n: nat)
    requires i + 2 <= |b|
    ensures n < 0x1_0000
  {
    BeBound(b[i..i + HALF]);
    Widths();
    Be(b[i..i + HALF])
  }

  function EncodeU32(n: u32): (b: seq<byte>)
    ensures |b| == 4 && Be(b) == n
  {
    Widths();
    BeToBe(n, WORD);
    ToBe(n, WORD)
  }

  function EncodeU16(n: nat): (b: seq<byte>)
    requires n < 0x1_0000
    ensures |b| == 2 && Be(b) == n
  {
    Widths();
    BeToBe(n, HALF);
    ToBe(n, HALF)
  }

  /** A word placed anywhere reads back as itself. */
  lemma U32At(pre: seq<byte>, n: u32, tail: seq<byte>)
    ensures U32(pre + EncodeU32(n) + tail, |pre|) == n
  {
    assert (pre + EncodeU32(n) + tail)[|pre|..|pre| + WORD] == EncodeU32(n);
  }

  lemma U16At(pre: seq<byte>, n: nat, tail: seq<byte>)
    requires n < 0x1_0000
    ensures U16(pre + EncodeU16(n) + tail, |pre|) == n
  {
    assert (pre + EncodeU16(n) + tail)[|pre|..|pre| + HALF] == EncodeU16(n);
  }

  lemma U32ReadsBack(b: seq<byte>, i: nat)
    requires i + 4 <= |b|
    ensures EncodeU32(U32(b, i)) == b[i..i + 4]
  {
    ToBeBe(b[i..i + WORD]);
  }

  lemma U16ReadsBack(b: seq<byte>, i: nat)
    requires i + 2 <= |b|
    ensures EncodeU16(U16(b, i)) == b[i..i + 2]
  {
    ToBeBe(b[i..i + HALF]);
  }

  /** Two's complement reading of an unsigned value of width `modulus`. */
  function Signed(n: nat, modulus: nat): int
  {
    if 2 * n < modulus then n else n - modulus
  }

  function Concat<T>(parts: seq<seq<T>>): seq<T>
  {
    if parts == [] then [] else parts[0] + Concat(parts[1..])
  }

  lemma ConcatAppend<T>(a: seq<seq<T>>, b: seq<seq<T>>)
    ensures Concat(a + b) == Concat(a) + Concat(b)
  {
    if a == [] {
      assert a + b == b;
    } else {
      assert (a + b)[1..] == a[1..] + b;
      ConcatAppend(a[1..], b);
      assert a[0] + (Concat(a[1..]) + Concat(b)) == a[0] + Concat(a[1..]) + Concat(b);
    }
  }
}
