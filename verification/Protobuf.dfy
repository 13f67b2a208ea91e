/** Protocol Buffers wire codecs: Devin's unbounded varints and Windsurf's 32-bit ones. */
module Protobuf {
  import opened Bytes
  import opened Bits

  // ----- Devin: BigInt varints -----

  const GROUP: nat := 7
  const LAST_SHIFT: nat := 70
  const VARINT_BITS: nat := 77

  /** encodeVarint. A negative value skips the loop and is stored as its low byte. */
  function EncodeVarint(v: int): (b: seq<byte>)
    ensures b != []
    decreases if v < 0 then 0 else v
  {
    if v > 127 then [v % 128 + 128] + EncodeVarint(v / 128) else [v % 256]
  }

  method WriteVarint(v: int) returns (bytes: seq<byte>)
    ensures bytes == EncodeVarint(v)
  {
    bytes := [];
    var current := v;
    while current > 127
      invariant bytes + EncodeVarint(current) == EncodeVarint(v)
      decreases if current < 0 then 0 else current
    {
      ghost var tail := EncodeVarint(current / 128);
      assert EncodeVarint(current) == [current % 128 + 128] + tail;
      assert bytes + [current % 128 + 128] + tail == bytes + EncodeVarint(current);
      bytes := bytes + [current % 128 + 128];
      current := current / 128;
    }
    bytes := bytes + [current % 256];
  }

  datatype Varint = Varint(value: nat, rest: seq<byte>) | Invalid | Truncated

  function ReadVarint(b: seq<byte>, value: nat, shift: nat): Varint
    decreases |b|
  {
    if b == [] then Truncated
    else
      var next := Or(value, Pow2(shift) * (b[0] % 128));
      if b[0] < 128 then Varint(next, b[1..])
      else if shift + GROUP > LAST_SHIFT then Invalid
      else ReadVarint(b[1..], next, shift + GROUP)
  }

  /** readVarint, by offset. */
  method ScanVarint(buffer: seq<byte>, start: nat) returns (r: Varint)
    requires start <= |buffer|
    ensures r == ReadVarint(buffer[start..], 0, 0)
  {
    hide Or, Pow2;
    var value: nat, shift: nat, offset := 0, 0, start;
    while offset < |buffer|
      invariant start <= offset <= |buffer|
      invariant ReadVarint(buffer[offset..], value, shift) == ReadVarint(buffer[start..], 0, 0)
    {
      var b := buffer[offset];
      assert buffer[offset..][1..] == buffer[offset + 1..];
      offset := offset + 1;
      value := Or(value, Pow2(shift) * (b % 128));
      if b < 128 {
        return Varint(value, buffer[offset..]);
      }
      shift := shift + GROUP;
      if shift > LAST_SHIFT {
        return Invalid;
      }
    }
    return Truncated;
  }

  lemma Distribute(p: nat, q: nat, r: nat)
    ensures p * (128 * q + r) == (128 * p) * q + p * r
  {
    assert p * (128 * q) == (128 * p) * q;
  }

  lemma Scale(p: nat, r: nat, n: nat)
    requires r < n
    ensures p * r + p <= n * p
  {
    assert p * r + p == p * (r + 1);
    assert p * (r + 1) <= p * n;
  }

  lemma GroupFacts(shift: nat, v: nat)
    ensures Pow2(shift + GROUP) == 128 * Pow2(shift)
    ensures Pow2(shift) * (v % 128) + Pow2(shift + GROUP) * (v / 128) == Pow2(shift) * v
    ensures Pow2(shift) * (v % 128) + Pow2(shift) <= Pow2(shift + GROUP)
  {
    assert Pow2(GROUP) == 128 by { PowersOfTwo(); }
    Pow2Add(shift, GROUP);
    hide Pow2;
    Distribute(Pow2(shift), v / 128, v % 128);
    Scale(Pow2(shift), v % 128, 128);
  }

  lemma SplitLimit(v: nat, shift: nat)
    requires shift + GROUP <= LAST_SHIFT
    ensures v < Pow2(LAST_SHIFT + GROUP - shift) <==> v / 128 < Pow2(LAST_SHIFT + GROUP - (shift + GROUP))
  {
    PowersOfTwo();
    Pow2Add(LAST_SHIFT + GROUP - (shift + GROUP), GROUP);
  }

  lemma ReadLast(v: nat, value: nat, shift: nat, tail: seq<byte>)
    requires v <= 127 && value < Pow2(shift)
    ensures ReadVarint(EncodeVarint(v) + tail, value, shift) == Varint(value + Pow2(shift) * v, tail)
  {
    hide Or, Pow2;
    DisjointOr(value, v, shift);
    assert EncodeVarint(v) == [v] && ([v] + tail)[1..] == tail;
  }

  lemma ReadMore(v: nat, value: nat, shift: nat, tail: seq<byte>)
    requires v > 127 && value < Pow2(shift)
    ensures ReadVarint(EncodeVarint(v) + tail, value, shift)
         == if shift + GROUP > LAST_SHIFT then Invalid
            else ReadVarint(EncodeVarint(v / 128) + tail, value + Pow2(shift) * (v % 128), shift + GROUP)
  {
    hide Or, Pow2;
    DisjointOr(value, v % 128, shift);
    var b := EncodeVarint(v) + tail;
    assert b[0] == v % 128 + 128 && b[0] % 128 == v % 128;
    assert b[1..] == EncodeVarint(v / 128) + tail;
  }

  /** Whatever follows it, an encoded value reads back exactly when it fits 77 bits, and is refused otherwise. */
  lemma {:induction false} VarintReadsBack(v: nat, value: nat, shift: nat, tail: seq<byte>)
    requires value < Pow2(shift) && shift <= LAST_SHIFT && shift % GROUP == 0
    ensures ReadVarint(EncodeVarint(v) + tail, value, shift)
         == if v < Pow2(LAST_SHIFT + GROUP - shift) then Varint(value + Pow2(shift) * v, tail) else Invalid
    decreases v
  {
    hide Pow2, ReadVarint, EncodeVarint;
    GroupFacts(shift, v);
    if v <= 127 {
      ReadLast(v, value, shift, tail);
      SmallFits(v, shift);
    } else {
      ReadMore(v, value, shift, tail);
      if shift + GROUP > LAST_SHIFT {
        assert Pow2(GROUP) == 128 by { PowersOfTwo(); }
        assert LAST_SHIFT + GROUP - shift == GROUP;
      } else {
        SplitLimit(v, shift);
        VarintReadsBack(v / 128, value + Pow2(shift) * (v % 128), shift + GROUP, tail);
      }
    }
  }

  lemma SmallFits(v: nat, shift: nat)
    requires v < 128 && shift <= LAST_SHIFT
    ensures v < Pow2(LAST_SHIFT + GROUP - shift)
  {
    PowersOfTwo();
    Pow2Add(GROUP, LAST_SHIFT - shift);
  }

  /** The law of the codec: it holds exactly below 2^77. */
  lemma VarintRoundTrip(v: nat, tail: seq<byte>)
    ensures ReadVarint(EncodeVarint(v) + tail, 0, 0) == if v < Pow2(VARINT_BITS) then Varint(v, tail) else Invalid
  {
    hide ReadVarint, EncodeVarint;
    VarintReadsBack(v, 0, 0, tail);
    assert Pow2(0) * v == v;
    assert LAST_SHIFT + GROUP - 0 == VARINT_BITS;
  }

  // ----- Devin: fields -----

  datatype Field = Number(number: nat, value: nat) | Payload(number: nat, bytes: seq<byte>)

  function Skip(b: seq<byte>, n: nat): seq<byte>
  {
    if n <= |b| then b[n..] else []
  }

  lemma {:induction false} VarintConsumes(b: seq<byte>, value: nat, shift: nat)
    ensures var r := ReadVarint(b, value, shift); r.Varint? ==> |r.rest| < |b|
    decreases |b|
  {
    hide Or, Pow2;
    if b != [] && b[0] >= 128 && shift + GROUP <= LAST_SHIFT {
      VarintConsumes(b[1..], Or(value, Pow2(shift) * (b[0] % 128)), shift + GROUP);
    }
  }

  /** One pass of decodeFields: a field, a skipped fixed-width value, or an error. */
  datatype Pass = Refused(why: string) | Passed(field: Option<Field>, rest: seq<byte>)

  function ReadField(b: seq<byte>): (r: Pass)
    requires b != []
    ensures r.Passed? ==> |r.rest| < |b|
  {
    VarintConsumes(b, 0, 0);
    var key := ReadVarint(b, 0, 0);
    if !key.Varint? then Refused("varint")
    else
      var number, wire := key.value / 8, key.value % 8;
      if wire == 0 then
        VarintConsumes(key.rest, 0, 0);
        var v := ReadVarint(key.rest, 0, 0);
        if v.Varint? then Passed(Some(Number(number, v.value)), v.rest) else Refused("varint")
      else if wire == 2 then
        VarintConsumes(key.rest, 0, 0);
        var n := ReadVarint(key.rest, 0, 0);
        if !n.Varint? then Refused("varint")
        else if n.value > |n.rest| then Refused("length")
        else Passed(Some(Payload(number, n.rest[..n.value])), n.rest[n.value..])
      else if wire == 1 then Passed(None, Skip(key.rest, 8))
      else if wire == 5 then Passed(None, Skip(key.rest, 4))
      else Refused("wire type")
  }

  function Add(fields: seq<Field>, f: Option<Field>): seq<Field>
  {
    if f.Some? then fields + [f.value] else fields
  }

  function Fields(b: seq<byte>, acc: seq<Field>): Result<seq<Field>>
    decreases |b|
  {
    if b == [] then Ok(acc)
    else match ReadField(b)
      case Refused(why) => Err(why)
      case Passed(f, rest) => Fields(rest, Add(acc, f))
  }

  /** The decodeFields loop. */
  method DecodeFields(buffer: seq<byte>) returns (r: Result<seq<Field>>)
    ensures r == Fields(buffer, [])
  {
    hide ReadField;
    var fields: seq<Field> := [];
    var rest := buffer;
    while rest != []
      invariant Fields(rest, fields) == Fields(buffer, [])
      decreases |rest|
    {
      match ReadField(rest) {
        case Refused(why) =>
          return Err(why);
        case Passed(f, next) =>
          fields, rest := Add(fields, f), next;
      }
    }
    return Ok(fields);
  }

  /** What the request builders write. */
  datatype Item = VarintItem(number: nat, value: nat) | DoubleItem(number: nat, raw: seq<byte>)
    | MessageItem(number: nat, bytes: seq<byte>)
  {
    predicate Valid()
    {
      match this
      case VarintItem(_, v) => v < Pow2(VARINT_BITS)
      case DoubleItem(_, raw) => |raw| == 8
      case MessageItem(_, bytes) => |bytes| < Pow2(VARINT_BITS)
    }

    function Wire(): nat
    {
      match this
      case VarintItem(_, _) => 0
      case DoubleItem(_, _) => 1
      case MessageItem(_, _) => 2
    }

    function Body(): seq<byte>
    {
      match this
      case VarintItem(_, v) => EncodeVarint(v)
      case DoubleItem(_, raw) => raw
      case MessageItem(_, bytes) => EncodeVarint(|bytes|) + bytes
    }

    function Meaning(): Option<Field>
    {
      match this
      case VarintItem(n, v) => Some(Number(n, v))
      case DoubleItem(_, _) => None
      case MessageItem(n, bytes) => Some(Payload(n, bytes))
    }
  }

  /** `number << 3 | wire` in 32-bit signed arithmetic, as the builders compute it. */
  function Key(number: nat, wire: nat): int
    requires wire < 8
  {
    Signed(number * 8 % 0x1_0000_0000, 0x1_0000_0000) + wire
  }

  function EncodeItem(i: Item): seq<byte>
  {
    EncodeVarint(Key(i.number, i.Wire())) + i.Body()
  }

  function EncodeItems(items: seq<Item>): seq<byte>
  {
    if items == [] then [] else EncodeItem(items[0]) + EncodeItems(items[1..])
  }

  function Meanings(items: seq<Item>, acc: seq<Field>): seq<Field>
    decreases |items|
  {
    if items == [] then acc else Meanings(items[1..], Add(acc, items[0].Meaning()))
  }

  lemma {:induction false} Pow2Monotone(m: nat, n: nat)
    requires m <= n
    ensures Pow2(m) <= Pow2(n)
    decreases n - m
  {
    if m < n {
      Pow2Monotone(m + 1, n);
    }
  }

  lemma WordFits()
    ensures Pow2(VARINT_BITS) >= 0x1_0000_0000
  {
    PowersOfTwo();
    Pow2Monotone(32, VARINT_BITS);
  }

  lemma SmallKey(number: nat, wire: nat)
    requires number < 0x1000_0000 && wire < 8
    ensures Key(number, wire) == 8 * number + wire && 8 * number + wire < Pow2(VARINT_BITS)
  {
    hide Pow2;
    WordFits();
    SmallMod(number * 8, 0x1_0000_0000);
  }

  lemma SmallMod(x: nat, m: nat)
    requires x < m
    ensures x % m == x
  {
  }

  lemma MulMonotone(p: nat, q: nat, a: nat, b: nat)
    requires p >= a && q >= b
    ensures p * q >= a * b
  {
    assert p * q >= p * b >= a * b;
  }

  lemma ItemReadsBack(i: Item, tail: seq<byte>)
    requires i.Valid() && i.number < 0x1000_0000
    ensures ReadField(EncodeItem(i) + tail) == Passed(i.Meaning(), tail)
  {
    hide ReadVarint, EncodeVarint, Pow2, Key;
    var key := Key(i.number, i.Wire());
    SmallKey(i.number, i.Wire());
    var b := EncodeItem(i) + tail;
    assert b == EncodeVarint(key) + (i.Body() + tail);
    VarintRoundTrip(key, i.Body() + tail);
    assert key / 8 == i.number && key % 8 == i.Wire();
    match i
    case VarintItem(_, v) => VarintRoundTrip(v, tail);
    case DoubleItem(_, raw) => assert (raw + tail)[8..] == tail;
    case MessageItem(_, bytes) =>
      VarintRoundTrip(|bytes|, bytes + tail);
      assert i.Body() + tail == EncodeVarint(|bytes|) + (bytes + tail);
      assert (bytes + tail)[..|bytes|] == bytes && (bytes + tail)[|bytes|..] == tail;
  }

  /** Any concatenation of built fields decodes to its varint and message fields, in order. */
  lemma {:induction false} FieldsRoundTrip(items: seq<Item>, acc: seq<Field>)
    requires forall i :: i in items ==> i.Valid() && i.number < 0x1000_0000
    ensures Fields(EncodeItems(items), acc) == Ok(Meanings(items, acc))
    decreases |items|
  {
    hide EncodeItem, ReadField;
    if items != [] {
      var i, tail := items[0], EncodeItems(items[1..]);
      ItemReadsBack(i, tail);
      assert EncodeItem(i) + tail != [] by { ItemNotEmpty(i); }
      FieldsRoundTrip(items[1..], Add(acc, i.Meaning()));
    }
  }

  lemma ItemNotEmpty(i: Item)
    ensures EncodeItem(i) != []
  {
  }

  /** From field number 2^28 on, the shifted key is a negative 32-bit number and only its low byte is written. */
  lemma LargeKey(number: nat, wire: nat)
    requires 0x1000_0000 <= number < 0x2000_0000 && wire < 8
    ensures Key(number, wire) < 0 && EncodeVarint(Key(number, wire)) == [(number * 8 + wire) % 0x100]
  {
    assert number * 8 % 0x1_0000_0000 == number * 8;
    assert Key(number, wire) == number * 8 + wire - 0x1_0000_0000;
    assert (number * 8 + wire - 0x1_0000_0000) % 0x100 == (number * 8 + wire) % 0x100;
  }

  /** Whatever was read before, a reader that gets through an encoded value stops at its end. */
  lemma {:induction false} StopsAtEnd(v: nat, value: nat, shift: nat, tail: seq<byte>)
    ensures var r := ReadVarint(EncodeVarint(v) + tail, value, shift); r.Varint? ==> r.rest == tail
    decreases v
  {
    hide Or, Pow2;
    var b := EncodeVarint(v) + tail;
    if v > 127 {
      assert b[1..] == EncodeVarint(v / 128) + tail;
      if shift + GROUP <= LAST_SHIFT {
        StopsAtEnd(v / 128, Or(value, Pow2(shift) * (b[0] % 128)), shift + GROUP, tail);
      }
    } else {
      assert b[1..] == tail;
    }
  }

  lemma OneByteKey(x: byte, tail: seq<byte>)
    requires x < 128
    ensures ReadVarint([x] + tail, 0, 0) == Varint(x, tail)
  {
    hide ReadVarint;
    assert Pow2(0) == 1;
    ReadLast(x, 0, 0, tail);
    assert EncodeVarint(x) == [x];
  }

  /** A continued key byte swallows the value, and the field has nothing left to read. */
  lemma SwallowedValue(x: byte, v: nat)
    requires x >= 128
    ensures Fields([x] + EncodeVarint(v), []).Err?
         || Fields([x] + EncodeVarint(v), []) == Ok([])
  {
    var b := [x] + EncodeVarint(v);
    assert b[1..] == EncodeVarint(v) + [];
    StopsAtEnd(v, Or(0, Pow2(0) * (x % 128)), GROUP, []);
    hide Or, Pow2, EncodeVarint;
    var key := ReadVarint(b, 0, 0);
    if key.Varint? {
      assert key.rest == [];
    }
  }

  lemma LargeNumberFails(number: nat, value: nat)
    requires 0x1000_0000 <= number < 0x2000_0000 && value < Pow2(VARINT_BITS)
    ensures Fields(EncodeItem(VarintItem(number, value)), []) != Ok([Number(number, value)])
  {
    hide ReadVarint, EncodeVarint, Pow2, Key;
    var b := EncodeItem(VarintItem(number, value));
    LargeKey(number, 0);
    var x := number * 8 % 0x100;
    assert b == [x] + EncodeVarint(value);
    if x >= 128 {
      SwallowedValue(x, value);
    } else {
      OneByteKey(x, EncodeVarint(value));
      VarintRoundTrip(value, []);
      assert EncodeVarint(value) + [] == EncodeVarint(value);
      assert x % 8 == 0;
      assert ReadField(b) == Passed(Some(Number(x / 8, value)), []);
      assert Add([], Some(Number(x / 8, value))) == [Number(x / 8, value)];
      assert Fields(b, []) == Fields([], [Number(x / 8, value)]);
    }
  }

  /** A single varint field survives the codec exactly for the field numbers below 2^28. */
  lemma VarintFieldRoundTripIff(number: nat, value: nat)
    requires number < 0x2000_0000 && value < Pow2(VARINT_BITS)
    ensures Fields(EncodeItem(VarintItem(number, value)), []) == Ok([Number(number, value)]) <==> number < 0x1000_0000
  {
    hide EncodeItem, ReadField, Pow2, Fields;
    var item := VarintItem(number, value);
    if number < 0x1000_0000 {
      FieldsRoundTrip([item], []);
      assert EncodeItems([item]) == EncodeItem(item) + [] == EncodeItem(item);
      assert Meanings([item], []) == [Number(number, value)];
    } else {
      LargeNumberFails(number, value);
    }
  }

  /** Fields already found stay, and no payload that is still to come is as long as the input. */
  lemma {:induction false} PayloadsShrink(b: seq<byte>, acc: seq<Field>, n: nat)
    requires |b| <= n
    ensures var r := Fields(b, acc);
            r.Ok? ==>
              && acc <= r.value
              && forall i :: |acc| <= i < |r.value| && r.value[i].Payload? ==> |r.value[i].bytes| < n
    decreases |b|
  {
    hide ReadVarint;
    if b != [] && ReadField(b).Passed? {
      VarintConsumes(b, 0, 0);
      VarintConsumes(ReadVarint(b, 0, 0).rest, 0, 0);
      PayloadsShrink(ReadField(b).rest, Add(acc, ReadField(b).field), n);
    }
  }

  lemma KeyContinues(x: byte, tail: seq<byte>)
    requires x >= 128
    ensures ReadVarint([x] + tail, 0, 0) == ReadVarint(tail, x % 128, GROUP)
  {
    var b := [x] + tail;
    assert b[1..] == tail && Pow2(0) * (x % 128) == x % 128;
    OrZero(x % 128);
    hide Or, Pow2;
  }

  /** What a field leaves for the payloads: less than what follows its key. */
  lemma FieldIsShort(b: seq<byte>)
    requires b != [] && ReadVarint(b, 0, 0).Varint? && ReadField(b).Passed?
    ensures var rest, pass := ReadVarint(b, 0, 0).rest, ReadField(b);
            |pass.rest| <= |rest|
              && (pass.field.Some? && pass.field.value.Payload? ==> |pass.field.value.bytes| < |rest|)
  {
    hide ReadVarint;
    VarintConsumes(ReadVarint(b, 0, 0).rest, 0, 0);
  }

  /** A continued key byte swallows the length: what is left is the payload, and no part of it is all of it. */
  lemma SwallowedLength(x: byte, bytes: seq<byte>, number: nat)
    requires x >= 128
    ensures Fields([x] + (EncodeVarint(|bytes|) + bytes), []) != Ok([Payload(number, bytes)])
  {
    hide ReadVarint, EncodeVarint, ReadField;
    var b := [x] + (EncodeVarint(|bytes|) + bytes);
    KeyContinues(x, EncodeVarint(|bytes|) + bytes);
    StopsAtEnd(|bytes|, x % 128, GROUP, bytes);
    if ReadField(b).Passed? {
      assert ReadVarint(b, 0, 0).Varint? by { PassedHasKey(b); }
      FieldIsShort(b);
      var found := Add([], ReadField(b).field);
      PayloadsShrink(ReadField(b).rest, found, |bytes|);
    }
  }

  lemma PassedHasKey(b: seq<byte>)
    requires b != [] && ReadField(b).Passed?
    ensures ReadVarint(b, 0, 0).Varint?
  {
  }

  lemma LargeMessageFails(number: nat, bytes: seq<byte>)
    requires 0x1000_0000 <= number < 0x2000_0000 && |bytes| < Pow2(VARINT_BITS)
    ensures Fields(EncodeItem(MessageItem(number, bytes)), []) != Ok([Payload(number, bytes)])
  {
    hide ReadVarint, EncodeVarint, Pow2, Key;
    var tail := EncodeVarint(|bytes|) + bytes;
    var b := EncodeItem(MessageItem(number, bytes));
    LargeKey(number, 2);
    var x := (number * 8 + 2) % 0x100;
    assert b == [x] + tail;
    if x >= 128 {
      SwallowedLength(x, bytes, number);
    } else {
      OneByteKey(x, tail);
      VarintRoundTrip(|bytes|, bytes);
      assert x % 8 == 2 && bytes[..|bytes|] == bytes && bytes[|bytes|..] == [];
      assert ReadField(b) == Passed(Some(Payload(x / 8, bytes)), []);
      assert Add([], Some(Payload(x / 8, bytes))) == [Payload(x / 8, bytes)];
      assert Fields(b, []) == Fields([], [Payload(x / 8, bytes)]);
    }
  }

  /** So does a single message or string field. */
  lemma MessageFieldRoundTripIff(number: nat, bytes: seq<byte>)
    requires number < 0x2000_0000 && |bytes| < Pow2(VARINT_BITS)
    ensures Fields(EncodeItem(MessageItem(number, bytes)), []) == Ok([Payload(number, bytes)]) <==> number < 0x1000_0000
  {
    hide EncodeItem, ReadField, Pow2, Fields;
    var item := MessageItem(number, bytes);
    if number < 0x1000_0000 {
      FieldsRoundTrip([item], []);
      assert EncodeItems([item]) == EncodeItem(item) + [] == EncodeItem(item);
      assert Meanings([item], []) == [Payload(number, bytes)];
    } else {
      LargeMessageFails(number, bytes);
    }
  }

  // ----- Devin: double fields, which are skipped -----

  /** A few bytes hold a complete varint exactly when one of them does not ask for more. */
  lemma {:induction false} TerminatesIff(b: seq<byte>, value: nat, shift: nat)
    requires shift + GROUP * |b| <= LAST_SHIFT
    ensures ReadVarint(b, value, shift).Varint? <==> exists i :: 0 <= i < |b| && b[i] < 128
    decreases |b|
  {
    hide Or, Pow2;
    if b != [] {
      var tail := b[1..];
      TerminatesIff(tail, Or(value, Pow2(shift) * (b[0] % 128)), shift + GROUP);
      assert forall i :: 0 < i < |b| ==> b[i] == tail[i - 1];
      if exists i :: 0 <= i < |tail| && tail[i] < 128 {
        var i :| 0 <= i < |tail| && tail[i] < 128;
        assert b[i + 1] < 128;
      }
    }
  }

  /** Later groups leave the first one alone. */
  lemma {:induction false} FirstGroupStays(b: seq<byte>, value: nat, shift: nat)
    requires shift >= GROUP && value < Pow2(shift)
    ensures var r := ReadVarint(b, value, shift); r.Varint? ==> r.value % 128 == value % 128
    decreases |b|
  {
    if b != [] {
      var g := b[0] % 128;
      DisjointOr(value, g, shift);
      GroupFacts(shift, g);
      assert Pow2(GROUP) == 128 by { PowersOfTwo(); }
      Pow2Add(GROUP, shift - GROUP);
      hide Or, Pow2;
      AddMultiple(value, Pow2(shift - GROUP), g);
      assert Pow2(shift) * g == 128 * (Pow2(shift - GROUP) * g);
      FirstGroupStays(b[1..], value + Pow2(shift) * g, shift + GROUP);
    }
  }

  lemma AddMultiple(value: nat, p: nat, g: nat)
    ensures (128 * p) * g == 128 * (p * g) && (value + 128 * (p * g)) % 128 == value % 128
  {
  }

  lemma LargeDouble(x: byte, raw: seq<byte>)
    requires x >= 128 && x % 8 == 1 && |raw| == 8
    ensures Fields([x] + raw, []) == Ok([]) <==> exists i :: 0 <= i < |raw| && raw[i] < 128
  {
    hide ReadVarint, Pow2, ReadField, Fields;
    assert Pow2(GROUP) == 128 by { PowersOfTwo(); }
    var b := [x] + raw;
    KeyContinues(x, raw);
    TerminatesIff(raw, x % 128, GROUP);
    FirstGroupStays(raw, x % 128, GROUP);
    VarintConsumes(raw, x % 128, GROUP);
    if ReadVarint(b, 0, 0).Varint? {
      SkipsAll(b);
    } else {
      NoKey(b);
    }
  }

  lemma NoKey(b: seq<byte>)
    requires b != [] && !ReadVarint(b, 0, 0).Varint?
    ensures Fields(b, []).Err?
  {
    hide ReadVarint;
  }

  lemma SkipsAll(b: seq<byte>)
    requires b != []
    requires var key := ReadVarint(b, 0, 0); key.Varint? && key.value % 128 % 8 == 1 && |key.rest| < 8
    ensures Fields(b, []) == Ok([])
  {
    hide ReadVarint;
    assert ReadField(b) == Passed(None, []);
    assert Fields(b, []) == Fields([], []);
  }

  /**
   * A double field is skipped whole exactly when its key fits, or its low byte is a whole key, or else some byte
   * of the value ends the varint that the key has become.
   */
  lemma DoubleFieldSkippedIff(number: nat, raw: seq<byte>)
    requires number < 0x2000_0000 && |raw| == 8
    ensures Fields(EncodeItem(DoubleItem(number, raw)), []) == Ok([])
       <==> number < 0x1000_0000 || number % 32 < 16 || exists i :: 0 <= i < |raw| && raw[i] < 128
  {
    hide Pow2, ReadVarint, EncodeVarint, Key;
    var item := DoubleItem(number, raw);
    var b := EncodeItem(item);
    if number < 0x1000_0000 {
      FieldsRoundTrip([item], []);
      assert EncodeItems([item]) == b + [] == b;
      assert Meanings([item], []) == [];
    } else {
      LargeKey(number, 1);
      var x := (number * 8 + 1) % 0x100;
      assert b == [x] + raw && x % 8 == 1 && (x < 128 <==> number % 32 < 16);
      if x < 128 {
        OneByteKey(x, raw);
        assert ReadField(b) == Passed(None, []);
        assert Fields(b, []) == Fields([], []);
      } else {
        LargeDouble(x, raw);
      }
    }
  }

  // ----- Windsurf: 32-bit varints -----

  const MODULUS: nat := 0x1_0000_0000

  /** encodeVarint on unsigned 32-bit words. */
  function EncodeVarint32(v: u32): seq<byte>
    decreases v
  {
    if v > 0x7F then [v % 0x80 + 0x80] + EncodeVarint32(v / 0x80) else [v]
  }

  /** `x << s` on 32-bit words: the shift count is taken modulo 32. */
  function Shl32(x: nat, s: nat): nat
  {
    Pow2(s % 32) * x % MODULUS
  }

  /** readVarint: no limit on the length, and a truncated value is returned as far as it got. */
  function ReadVarint32(b: seq<byte>, value: nat, shift: nat): (nat, seq<byte>)
    decreases |b|
  {
    if b == [] then (value, [])
    else
      var next := Or(value, Shl32(b[0] % 0x80, shift));
      if b[0] < 0x80 then (next, b[1..]) else ReadVarint32(b[1..], next, shift + GROUP)
  }

  method ScanVarint32(buf: seq<byte>, start: nat) returns (value: nat, rest: seq<byte>)
    requires start <= |buf|
    ensures (value, rest) == ReadVarint32(buf[start..], 0, 0)
  {
    hide Or, Shl32;
    value := 0;
    var shift: nat, offset := 0, start;
    while offset < |buf|
      invariant start <= offset <= |buf|
      invariant ReadVarint32(buf[offset..], value, shift) == ReadVarint32(buf[start..], 0, 0)
    {
      var b := buf[offset];
      assert buf[offset..][1..] == buf[offset + 1..];
      offset := offset + 1;
      value := Or(value, Shl32(b % 0x80, shift));
      if b < 0x80 {
        return value, buf[offset..];
      }
      shift := shift + GROUP;
    }
    rest := [];
  }

  /** Both executors write the same bytes for every 32-bit value. */
  lemma {:induction false} SameBytes(v: u32)
    ensures EncodeVarint32(v) == EncodeVarint(v)
    decreases v
  {
    if v > 0x7F {
      SameBytes(v / 0x80);
    }
  }

  lemma NoOverflow(x: nat, shift: nat)
    requires shift < 32 && Pow2(shift) * x < MODULUS
    ensures Shl32(x, shift) == Pow2(shift) * x
  {
    hide Pow2;
    SmallMod(shift, 32);
    SmallMod(Pow2(shift) * x, MODULUS);
  }

  lemma LowPart(v: nat, p: nat)
    requires p * v < MODULUS
    ensures p * (v % 0x80) < MODULUS && (128 * p) * (v / 0x80) < MODULUS
  {
    Distribute(p, v / 0x80, v % 0x80);
    assert v == 128 * (v / 0x80) + v % 0x80;
    assert p * v == (128 * p) * (v / 0x80) + p * (v % 0x80);
    assert (128 * p) * (v / 0x80) >= 0 && p * (v % 0x80) >= 0;
  }

  lemma Read32Last(v: u32, value: nat, shift: nat, tail: seq<byte>)
    requires v <= 0x7F && value < Pow2(shift) && Pow2(shift) * v < MODULUS && shift < 32
    ensures ReadVarint32(EncodeVarint32(v) + tail, value, shift) == (value + Pow2(shift) * v, tail)
  {
    hide Or, Pow2, Shl32;
    NoOverflow(v, shift);
    DisjointOr(value, v, shift);
    assert EncodeVarint32(v) == [v] && ([v] + tail)[1..] == tail;
  }

  /** The low group of `v`, at its place. */
  function GroupAt(shift: nat, v: nat): nat
  {
    Pow2(shift) * (v % 0x80)
  }

  lemma Read32More(v: u32, value: nat, shift: nat, tail: seq<byte>)
    requires v > 0x7F && value < Pow2(shift) && GroupAt(shift, v) < MODULUS && shift < 32
    ensures ReadVarint32(EncodeVarint32(v) + tail, value, shift)
         == ReadVarint32(EncodeVarint32(v / 0x80) + tail, value + GroupAt(shift, v), shift + GROUP)
  {
    hide Or, Pow2, Shl32;
    NoOverflow(v % 0x80, shift);
    DisjointOr(value, v % 0x80, shift);
    var b := EncodeVarint32(v) + tail;
    assert b[0] == v % 0x80 + 0x80 && b[0] % 0x80 == v % 0x80;
    assert b[1..] == EncodeVarint32(v / 0x80) + tail;
  }

  lemma {:induction false} Varint32ReadsBack(v: u32, value: nat, shift: nat, tail: seq<byte>)
    requires value < Pow2(shift) && Pow2(shift) * v < MODULUS && shift % GROUP == 0
    requires shift < 32 && (v > 0x7F ==> shift + GROUP < 32)
    ensures ReadVarint32(EncodeVarint32(v) + tail, value, shift) == (value + Pow2(shift) * v, tail)
    decreases v
  {
    hide Pow2, ReadVarint32, EncodeVarint32;
    if v <= 0x7F {
      Read32Last(v, value, shift, tail);
    } else {
      LowPart(v, Pow2(shift));
      GroupFacts(shift, v);
      Read32More(v, value, shift, tail);
      if v / 0x80 > 0x7F {
        ShortEnough(v, shift);
      }
      Varint32ReadsBack(v / 0x80, value + Pow2(shift) * (v % 0x80), shift + GROUP, tail);
    }
  }

  lemma ShortEnough(v: nat, shift: nat)
    requires Pow2(shift) * v < MODULUS && v / 0x80 > 0x7F && shift % GROUP == 0 && shift < 32
    ensures shift + GROUP + GROUP < 32
  {
    if shift >= 21 {
      hide Pow2;
      PowersOfTwo();
      Pow2Monotone(21, shift);
      MulMonotone(Pow2(shift), v, 0x20_0000, 0x4000);
    }
  }

  /** Every 32-bit value round-trips, whatever follows. */
  lemma Varint32RoundTrip(v: u32, tail: seq<byte>)
    ensures ReadVarint32(EncodeVarint32(v) + tail, 0, 0) == (v, tail)
  {
    assert Pow2(0) * v == v;
    Varint32ReadsBack(v, 0, 0, tail);
  }
}
