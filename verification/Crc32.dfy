/** The table-driven CRC of the EventStream decoder against the serial register of RFC 1952, section 8. */
module Crc32 {
  import opened Bytes
  import opened Bits

  const BITS: nat := 8
  const WIDTH: nat := 32

  /** A 32-bit register, bit 0 first. */
  type Word = w: seq<bool> | |w| == 32 witness Zeros(32)

  function WordOf(n: nat): Word
  {
    LowBits(n, WIDTH)
  }

  function Xor(a: Word, b: Word): (c: Word)
  {
    seq(32, i requires 0 <= i < 32 => a[i] != b[i])
  }

  function Down(a: Word, k: nat): Word
    requires k <= 32
  {
    a[k..] + Zeros(k)
  }

  const POLY: Word := WordOf(0xEDB8_8320)

  /** 0xffffffff, the preset and the final mask. */
  function Ones(): Word
  {
    seq(32, _ => true)
  }

  // ----- reference: one serial pass over the message bits -----

  /** Feed one message bit to the reflected shift register. */
  function FeedBit(p: Word, c: Word, bit: bool): Word
  {
    if c[0] != bit then Xor(Down(c, 1), p) else Down(c, 1)
  }

  function Feed(p: Word, c: Word, bits: seq<bool>): Word
    decreases |bits|
  {
    if bits == [] then c else Feed(p, FeedBit(p, c, bits[0]), bits[1..])
  }

  /** Each byte least significant bit first, the order in which RFC 1952 transmits it. */
  function MessageBits(bytes: seq<byte>): seq<bool>
  {
    if bytes == [] then [] else LowBits(bytes[0], BITS) + MessageBits(bytes[1..])
  }

  /** Preset, serial pass, final complement. */
  function SerialCrc(p: Word, bytes: seq<byte>): Word
  {
    Xor(Feed(p, Ones(), MessageBits(bytes)), Ones())
  }

  function Checksum(bytes: seq<byte>): Word
  {
    SerialCrc(POLY, bytes)
  }

  /** The checksum as the unsigned number a frame stores. */
  function Crc(bytes: seq<byte>): u32
  {
    ToNatBound(Checksum(bytes));
    PowersOfTwo();
    ToNat(Checksum(bytes))
  }

  // ----- register algebra -----

  /** One register shift with no message bit, as the table is built. */
  function Shift(p: Word, c: Word): Word
  {
    if c[0] then Xor(Down(c, 1), p) else Down(c, 1)
  }

  function Shifts(p: Word, c: Word, n: nat): Word
    decreases n
  {
    if n == 0 then c else Shifts(p, Shift(p, c), n - 1)
  }

  lemma ShiftIsLinear(p: Word, x: Word, y: Word)
    ensures Shift(p, Xor(x, y)) == Xor(Shift(p, x), Shift(p, y))
  {
  }

  /** Mixing a word in and shifting feeds its low bit and moves the rest down. */
  lemma ShiftFeeds(p: Word, c: Word, r: Word)
    ensures Shift(p, Xor(c, r)) == Xor(FeedBit(p, c, r[0]), Down(r, 1))
  {
  }

  /** The polynomial's top coefficient records whether feedback fired, so no two states merge. */
  lemma FeedInjective(p: Word, c: Word, d: Word, bit: bool)
    requires p[31] && FeedBit(p, c, bit) == FeedBit(p, d, bit)
    ensures c == d
  {
    var e := FeedBit(p, c, bit);
    assert e[31] == (c[0] != bit) == (d[0] != bit);
    forall i | 0 < i < 32 ensures c[i] == d[i] {
      assert e[i - 1] == (c[i] != (e[31] && p[i - 1]));
      assert e[i - 1] == (d[i] != (e[31] && p[i - 1]));
    }
  }

  lemma {:induction false} ShiftsAreLinear(p: Word, x: Word, y: Word, n: nat)
    ensures Shifts(p, Xor(x, y), n) == Xor(Shifts(p, x, n), Shifts(p, y, n))
    decreases n
  {
    if n > 0 {
      ShiftIsLinear(p, x, y);
      ShiftsAreLinear(p, Shift(p, x), Shift(p, y), n - 1);
    }
  }

  lemma DownDown(r: Word, n: nat)
    requires n < 32
    ensures Down(Down(r, 1), n) == Down(r, n + 1)
  {
  }

  lemma {:induction false} ShiftsFeed(p: Word, c: Word, r: Word, n: nat)
    requires n <= 32
    ensures Shifts(p, Xor(c, r), n) == Xor(Feed(p, c, r[..n]), Down(r, n))
    decreases n
  {
    if n == 0 {
      assert Down(r, 0) == r;
    } else {
      var s := Down(r, 1);
      ShiftFeeds(p, c, r);
      ShiftsFeed(p, FeedBit(p, c, r[0]), s, n - 1);
      assert s[..n - 1] == r[..n][1..];
      DownDown(r, n - 1);
    }
  }

  /** A word whose low bits are clear only moves down. */
  lemma {:induction false} ShiftsHigh(p: Word, r: Word, n: nat)
    requires n <= 32 && forall i :: 0 <= i < n ==> !r[i]
    ensures Shifts(p, r, n) == Down(r, n)
    decreases n
  {
    if n > 0 {
      ShiftsHigh(p, Down(r, 1), n - 1);
      DownDown(r, n - 1);
    }
  }

  // ----- byte at a time -----

  lemma ByteWord(b: byte)
    ensures WordOf(b) == LowBits(b, BITS) + Zeros(32 - BITS)
  {
    PowersOfTwo();
    LowBitsSplit(b, BITS, WIDTH - BITS);
  }

  lemma XorZeros(c: Word)
    ensures Xor(c, Zeros(32)) == c
  {
  }

  lemma FeedByte(p: Word, c: Word, b: byte)
    ensures Feed(p, c, LowBits(b, BITS)) == Shifts(p, Xor(c, WordOf(b)), BITS)
  {
    ByteWord(b);
    ShiftsFeed(p, c, WordOf(b), BITS);
    assert WordOf(b)[..BITS] == LowBits(b, BITS);
    assert Down(WordOf(b), BITS) == Zeros(32);
    XorZeros(Feed(p, c, LowBits(b, BITS)));
  }

  lemma {:induction false} FeedAppend(p: Word, c: Word, a: seq<bool>, b: seq<bool>)
    ensures Feed(p, c, a + b) == Feed(p, Feed(p, c, a), b)
    decreases |a|
  {
    if a == [] {
      assert a + b == b;
    } else {
      assert (a + b)[1..] == a[1..] + b;
      FeedAppend(p, FeedBit(p, c, a[0]), a[1..], b);
    }
  }

  /** Table[i] is what eight feedback shifts make of the byte i. */
  predicate IsTable(p: Word, t: seq<Word>)
  {
    |t| == 256 && forall i :: 0 <= i < 256 ==> t[i] == Shifts(p, WordOf(i), BITS)
  }

  method TableEntry(p: Word, index: Word) returns (value: Word)
    ensures value == Shifts(p, index, BITS)
  {
    value := index;
    for bit := 0 to BITS
      invariant Shifts(p, value, BITS - bit) == Shifts(p, index, BITS)
    {
      value := if value[0] then Xor(Down(value, 1), p) else Down(value, 1);
    }
  }

  method BuildTable(p: Word) returns (t: seq<Word>)
    ensures IsTable(p, t)
  {
    t := [];
    for index := 0 to 256
      invariant |t| == index
      invariant forall i :: 0 <= i < index ==> t[i] == Shifts(p, WordOf(i), BITS)
    {
      var value := TableEntry(p, WordOf(index));
      t := t + [value];
    }
  }

  /** The index `(crc ^ byte) & 0xff`. */
  function LowByte(x: Word): (i: nat)
    ensures i < 256
  {
    PowersOfTwo();
    ToNatBound(x[..BITS]);
    ToNat(x[..BITS])
  }

  /** The low byte of a word and the rest, each as a word. */
  lemma SplitWord(x: Word, low: Word, high: Word)
    requires low == x[..BITS] + Zeros(32 - BITS) && high == Zeros(BITS) + x[BITS..]
    ensures x == Xor(low, high) && Down(high, BITS) == Down(x, BITS) && WordOf(LowByte(x)) == low
  {
    LowBitsToNat(x[..BITS], WIDTH);
  }

  lemma ByteTouchesLow(c: Word, b: byte)
    ensures Down(Xor(c, WordOf(b)), BITS) == Down(c, BITS)
  {
    ByteWord(b);
  }

  lemma TableStep(p: Word, t: seq<Word>, c: Word, b: byte)
    requires IsTable(p, t)
    ensures Xor(t[LowByte(Xor(c, WordOf(b)))], Down(c, BITS)) == Shifts(p, Xor(c, WordOf(b)), BITS)
  {
    var x := Xor(c, WordOf(b));
    var low: Word := x[..BITS] + Zeros(32 - BITS);
    var high: Word := Zeros(BITS) + x[BITS..];
    SplitWord(x, low, high);
    ByteTouchesLow(c, b);
    ShiftsAreLinear(p, low, high, BITS);
    ShiftsHigh(p, high, BITS);
  }

  /** The table-driven pass computes the serial checksum of every message. */
  method ComputeCrc(p: Word, t: seq<Word>, bytes: seq<byte>) returns (crc: Word)
    requires IsTable(p, t)
    ensures crc == SerialCrc(p, bytes)
  {
    crc := Ones();
    for i := 0 to |bytes|
      invariant Feed(p, crc, MessageBits(bytes[i..])) == Feed(p, Ones(), MessageBits(bytes))
    {
      assert bytes[i..][1..] == bytes[i + 1..];
      FeedAppend(p, crc, LowBits(bytes[i], BITS), MessageBits(bytes[i + 1..]));
      FeedByte(p, crc, bytes[i]);
      TableStep(p, t, crc, bytes[i]);
      crc := Xor(t[LowByte(Xor(crc, WordOf(bytes[i])))], Down(crc, BITS));
    }
    crc := Xor(crc, Ones());
  }

  // ----- what the checksum detects -----

  lemma {:induction false} TopBitSet(r: nat, k: nat)
    requires Pow2(k) <= r < 2 * Pow2(k)
    ensures LowBits(r, k + 1)[k]
    decreases k
  {
    if k > 0 {
      TopBitSet(r / 2, k - 1);
    }
  }

  lemma TopCoefficient()
    ensures POLY[31]
  {
    PowersOfTwo();
    TopBitSet(0xEDB8_8320, WIDTH - 1);
  }

  lemma {:induction false} FeedsInjective(p: Word, c: Word, d: Word, bits: seq<bool>)
    requires p[31] && Feed(p, c, bits) == Feed(p, d, bits)
    ensures c == d
    decreases |bits|
  {
    if bits != [] {
      FeedsInjective(p, FeedBit(p, c, bits[0]), FeedBit(p, d, bits[0]), bits[1..]);
      FeedInjective(p, c, d, bits[0]);
    }
  }

  lemma {:induction false} ShiftsInjective(p: Word, x: Word, y: Word, n: nat)
    requires p[31] && Shifts(p, x, n) == Shifts(p, y, n)
    ensures x == y
    decreases n
  {
    if n > 0 {
      ShiftsInjective(p, Shift(p, x), Shift(p, y), n - 1);
      assert Shift(p, x) == FeedBit(p, x, false) && Shift(p, y) == FeedBit(p, y, false);
      FeedInjective(p, x, y, false);
    }
  }

  /** From one state, two different windows of at most 32 bits lead to different states. */
  lemma WindowInjective(p: Word, c: Word, w: seq<bool>, v: seq<bool>)
    requires p[31] && |w| == |v| <= 32 && Feed(p, c, w) == Feed(p, c, v)
    ensures w == v
  {
    var n := |w|;
    var x: Word, y: Word := w + Zeros(32 - n), v + Zeros(32 - n);
    ShiftsFeed(p, c, x, n);
    ShiftsFeed(p, c, y, n);
    assert x[..n] == w && y[..n] == v;
    assert Down(x, n) == Down(y, n);
    ShiftsInjective(p, Xor(c, x), Xor(c, y), n);
    forall i | 0 <= i < n ensures w[i] == v[i] {
      assert Xor(c, x)[i] == Xor(c, y)[i];
    }
  }

  lemma BurstChangesRegister(p: Word, c: Word, pre: seq<bool>, w: seq<bool>, v: seq<bool>, s: seq<bool>)
    requires p[31] && |w| == |v| <= 32 && w != v
    ensures Feed(p, c, pre + w + s) != Feed(p, c, pre + v + s)
  {
    FeedAppend(p, c, pre + w, s);
    FeedAppend(p, c, pre, w);
    FeedAppend(p, c, pre + v, s);
    FeedAppend(p, c, pre, v);
    if Feed(p, c, pre + w + s) == Feed(p, c, pre + v + s) {
      FeedsInjective(p, Feed(p, c, pre + w), Feed(p, c, pre + v), s);
      WindowInjective(p, Feed(p, c, pre), w, v);
    }
  }

  lemma ToNatInjective(a: seq<bool>, b: seq<bool>)
    requires |a| == |b| && ToNat(a) == ToNat(b)
    ensures a == b
  {
    LowBitsToNat(a, |a|);
    LowBitsToNat(b, |b|);
    assert a + Zeros(0) == a && b + Zeros(0) == b;
  }

  /** Every corruption confined to 32 consecutive bits changes the checksum, whatever surrounds it. */
  lemma BurstDetected(m: seq<byte>, m': seq<byte>, pre: seq<bool>, w: seq<bool>, w': seq<bool>, s: seq<bool>)
    requires MessageBits(m) == pre + w + s && MessageBits(m') == pre + w' + s
    requires |w| == |w'| <= 32 && w != w'
    ensures Crc(m) != Crc(m')
  {
    TopCoefficient();
    BurstChangesRegister(POLY, Ones(), pre, w, w', s);
    if Crc(m) == Crc(m') {
      ToNatInjective(Checksum(m), Checksum(m'));
      XorRight(Feed(POLY, Ones(), MessageBits(m)), Feed(POLY, Ones(), MessageBits(m')), Ones());
    }
  }

  lemma XorRight(a: Word, b: Word, p: Word)
    requires Xor(a, p) == Xor(b, p)
    ensures a == b
  {
    forall i | 0 <= i < 32 ensures a[i] == b[i] {
      assert Xor(a, p)[i] == Xor(b, p)[i];
    }
  }
}
