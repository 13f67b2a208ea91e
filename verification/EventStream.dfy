/** Amazon Event Stream frames: the decoder of the Kiro executor and the encoder the format prescribes. */
module EventStream {
  import opened Bytes
  import Crc32
  import opened Framing
  import opened Json

  const MAX_MESSAGE := 24 * 1024 * 1024
  const MAX_HEADERS := 128 * 1024

  type Checksum = seq<byte> -> u32

  /** Text and JSON decoding belong to the runtime. Frame layout is the same whatever the checksum. */
  datatype Codec =
    Codec(crc: Checksum, text: seq<byte> -> string, json: string -> Option<Json>, blank: string -> bool)

  datatype HeaderValue = HBool(b: bool) | HInt(n: int) | HBytes(bytes: seq<byte>) | HText(text: string)

  datatype Event = Event(headers: map<string, HeaderValue>, payload: Option<Json>)

  // ----- the decoder -----

  predicate BoundsOk(total: nat, headers: nat)
  {
    16 <= total <= MAX_MESSAGE && headers <= MAX_HEADERS && headers <= total - 16
  }

  /** What the read loop makes of the front of its buffer. */
  function Prelude(crc: Checksum, buf: seq<byte>): Look
  {
    if |buf| < 12 then More
    else if U32(buf, 8) != crc(buf[..8]) || !BoundsOk(U32(buf, 0), U32(buf, 4)) then Bad
    else if |buf| < U32(buf, 0) then More
    else Frame(U32(buf, 0))
  }

  function FrameLook(crc: Checksum): seq<byte> -> Look
  {
    buf => Prelude(crc, buf)
  }

  lemma PreludeExtends(crc: Checksum, a: seq<byte>, b: seq<byte>)
    requires !Prelude(crc, a).More?
    ensures Prelude(crc, a + b) == Prelude(crc, a)
  {
    hide Be;
    assert (a + b)[..8] == a[..8];
    assert (a + b)[0..WORD] == a[0..WORD];
    assert (a + b)[4..4 + WORD] == a[4..4 + WORD];
    assert (a + b)[8..8 + WORD] == a[8..8 + WORD];
  }

  lemma LookIsStable(crc: Checksum)
    ensures Stable(FrameLook(crc)) && FrameLook(crc)([]).More?
  {
    forall a, b | !FrameLook(crc)(a).More? ensures FrameLook(crc)(a + b) == FrameLook(crc)(a) {
      PreludeExtends(crc, a, b);
    }
  }

  /** One header value: what is stored under its name (nothing for the skipped types) and its width. */
  datatype Value = NoValue | Value(stored: Option<HeaderValue>, width: nat)

  function ReadValue(c: Codec, kind: byte, b: seq<byte>): (v: Value)
    ensures v.Value? ==> v.width <= |b|
  {
    if kind == 0 || kind == 1 then Value(Some(HBool(kind == 0)), 0)
    else if kind == 2 && 1 <= |b| then Value(Some(HInt(Signed(b[0], 0x100))), 1)
    else if kind == 3 && 2 <= |b| then Value(Some(HInt(Signed(U16(b, 0), 0x1_0000))), 2)
    else if kind == 4 && 4 <= |b| then Value(Some(HInt(Signed(U32(b, 0), 0x1_0000_0000))), 4)
    else if (kind == 5 || kind == 8) && 8 <= |b| then Value(None, 8)
    else if (kind == 6 || kind == 7) && 2 <= |b| && 2 + U16(b, 0) <= |b| then
      var bytes := b[2..2 + U16(b, 0)];
      Value(Some(if kind == 7 then HText(c.text(bytes)) else HBytes(bytes)), 2 + |bytes|)
    else if kind == 9 && 16 <= |b| then Value(None, 16)
    else NoValue
  }

  function Store(m: map<string, HeaderValue>, name: string, v: Option<HeaderValue>): map<string, HeaderValue>
  {
    if v.Some? then m[name := v.value] else m
  }

  datatype OneHeader = NoHeader | OneHeader(name: string, stored: Option<HeaderValue>, width: nat)

  /** The header at the front of what is left of the header region. */
  function ReadHeader(c: Codec, h: seq<byte>): (r: OneHeader)
    requires h != []
    ensures r.OneHeader? ==> 0 < r.width <= |h|
  {
    var n: int := h[0];
    if n + 2 > |h| then NoHeader
    else
      var v := ReadValue(c, h[1 + n], h[2 + n..]);
      if v.NoValue? then NoHeader else OneHeader(c.text(h[1..1 + n]), v.stored, 2 + n + v.width)
  }

  function ReadHeaders(c: Codec, h: seq<byte>, names: set<string>, acc: map<string, HeaderValue>):
    Result<map<string, HeaderValue>>
    decreases |h|
  {
    if h == [] then Ok(acc)
    else match ReadHeader(c, h)
      case NoHeader => Err("header exceeds its declared bounds or has unknown type")
      case OneHeader(name, stored, width) =>
        if name in names then Err("duplicate header")
        else ReadHeaders(c, h[width..], names + {name}, Store(acc, name, stored))
  }

  function ReadPayload(c: Codec, p: seq<byte>): Result<Option<Json>>
  {
    if p == [] || c.blank(c.text(p)) then Ok(None)
    else match c.json(c.text(p))
      case Some(j) => Ok(Some(j))
      case None => Err("payload is not valid JSON")
  }

  predicate ChecksOk(crc: Checksum, data: seq<byte>)
  {
    && |data| >= 16
    && U32(data, 0) == |data|
    && BoundsOk(|data|, U32(data, 4))
    && U32(data, 8) == crc(data[..8])
    && U32(data, |data| - 4) == crc(data[..|data| - 4])
  }

  function ParseFrame(c: Codec, data: seq<byte>): Result<Event>
  {
    if !ChecksOk(c.crc, data) then Err("frame checks failed")
    else
      var headerEnd := 12 + U32(data, 4);
      var headers := ReadHeaders(c, data[12..headerEnd], {}, map[]);
      var payload := ReadPayload(c, data[headerEnd..|data| - 4]);
      if headers.Err? then Err(headers.error)
      else if payload.Err? then Err(payload.error)
      else Ok(Event(headers.value, payload.value))
  }

  /** The decoder as the source runs it: one offset moving through the header region. */
  method ParseEventFrame(c: Codec, data: seq<byte>) returns (r: Result<Event>)
    ensures r == ParseFrame(c, data)
  {
    hide ReadHeader, ReadPayload, U32;
    if !ChecksOk(c.crc, data) {
      return Err("frame checks failed");
    }
    var headers: map<string, HeaderValue> := map[];
    var names: set<string> := {};
    var offset := 12;
    var headerEnd := 12 + U32(data, 4);
    while offset < headerEnd
      invariant 12 <= offset <= headerEnd <= |data| - 4
      invariant ReadHeaders(c, data[offset..headerEnd], names, headers)
             == ReadHeaders(c, data[12..headerEnd], {}, map[])
    {
      var h := ReadHeader(c, data[offset..headerEnd]);
      if h.NoHeader? {
        return Err("header exceeds its declared bounds or has unknown type");
      }
      if h.name in names {
        return Err("duplicate header");
      }
      assert data[offset..headerEnd][h.width..] == data[offset + h.width..headerEnd];
      headers, names, offset := Store(headers, h.name, h.stored), names + {h.name}, offset + h.width;
    }
    var payload := ReadPayload(c, data[headerEnd..|data| - 4]);
    r := if payload.Ok? then Ok(Event(headers, payload.value)) else Err(payload.error);
  }

  // ----- the format's encoder -----

  datatype Field =
    | FBool(b: bool)
    | FByte(n: int)
    | FShort(n: int)
    | FInt(n: int)
    | FLong(raw: seq<byte>)
    | FBytes(bytes: seq<byte>)
    | FText(bytes: seq<byte>)
    | FTime(raw: seq<byte>)
    | FUuid(raw: seq<byte>)
  {
    predicate Valid()
    {
      match this
      case FBool(_) => true
      case FByte(n) => -0x80 <= n < 0x80
      case FShort(n) => -0x8000 <= n < 0x8000
      case FInt(n) => -0x8000_0000 <= n < 0x8000_0000
      case FLong(raw) => |raw| == 8
      case FBytes(bytes) => |bytes| < 0x1_0000
      case FText(bytes) => |bytes| < 0x1_0000
      case FTime(raw) => |raw| == 8
      case FUuid(raw) => |raw| == 16
    }

    function Kind(): byte
    {
      match this
      case FBool(b) => if b then 0 else 1
      case FByte(_) => 2
      case FShort(_) => 3
      case FInt(_) => 4
      case FLong(_) => 5
      case FBytes(_) => 6
      case FText(_) => 7
      case FTime(_) => 8
      case FUuid(_) => 9
    }

    function Body(): seq<byte>
      requires Valid()
    {
      match this
      case FBool(_) => []
      case FByte(n) => [n % 0x100]
      case FShort(n) => EncodeU16(n % 0x1_0000)
      case FInt(n) => EncodeU32(n % 0x1_0000_0000)
      case FLong(raw) => raw
      case FBytes(bytes) => EncodeU16(|bytes|) + bytes
      case FText(bytes) => EncodeU16(|bytes|) + bytes
      case FTime(raw) => raw
      case FUuid(raw) => raw
    }

    /** What a reader of the format is told; the proxy ignores 64-bit, timestamp and uuid values. */
    function Meaning(c: Codec): Option<HeaderValue>
    {
      match this
      case FBool(b) => Some(HBool(b))
      case FByte(n) => Some(HInt(n))
      case FShort(n) => Some(HInt(n))
      case FInt(n) => Some(HInt(n))
      case FBytes(bytes) => Some(HBytes(bytes))
      case FText(bytes) => Some(HText(c.text(bytes)))
      case _ => None
    }
  }

  datatype Header = Header(name: seq<byte>, field: Field)
  {
    predicate Valid() { |name| < 0x100 && field.Valid() }

    function Encode(): seq<byte>
      requires Valid()
    {
      [|name|] + name + [field.Kind()] + field.Body()
    }
  }

  predicate AllValid(hs: seq<Header>)
  {
    forall h :: h in hs ==> h.Valid()
  }

  function EncodeHeaders(hs: seq<Header>): seq<byte>
    requires AllValid(hs)
  {
    if hs == [] then [] else hs[0].Encode() + EncodeHeaders(hs[1..])
  }

  predicate DistinctNames(c: Codec, hs: seq<Header>, taken: set<string>)
  {
    hs == [] || (c.text(hs[0].name) !in taken && DistinctNames(c, hs[1..], taken + {c.text(hs[0].name)}))
  }

  function Meanings(c: Codec, hs: seq<Header>, acc: map<string, HeaderValue>): map<string, HeaderValue>
    decreases |hs|
  {
    if hs == [] then acc else Meanings(c, hs[1..], Store(acc, c.text(hs[0].name), hs[0].field.Meaning(c)))
  }

  predicate Encodable(hs: seq<Header>, payload: seq<byte>)
  {
    AllValid(hs) && |EncodeHeaders(hs)| <= MAX_HEADERS && 16 + |EncodeHeaders(hs)| + |payload| <= MAX_MESSAGE
  }

  function EncodePrelude(crc: Checksum, total: u32, headers: u32): (p: seq<byte>)
    ensures |p| == 12
  {
    var lengths := EncodeU32(total) + EncodeU32(headers);
    lengths + EncodeU32(crc(lengths))
  }

  function EncodeFrame(crc: Checksum, hs: seq<Header>, payload: seq<byte>): seq<byte>
    requires Encodable(hs, payload)
  {
    var h := EncodeHeaders(hs);
    var body := EncodePrelude(crc, 16 + |h| + |payload|, |h|) + h + payload;
    body + EncodeU32(crc(body))
  }

  // ----- the decoder inverts the encoder -----

  lemma ReadNumber(c: Codec, f: Field, tail: seq<byte>)
    requires f.Valid() && (f.FByte? || f.FShort? || f.FInt?)
    ensures ReadValue(c, f.Kind(), f.Body() + tail) == Value(Some(HInt(f.n)), |f.Body()|)
  {
    hide Be, ToBe, U16, U32;
    match f
    case FByte(n) =>
    case FShort(n) =>
      U16At([], n % 0x1_0000, tail);
      assert [] + f.Body() + tail == f.Body() + tail;
    case FInt(n) =>
      U32At([], n % 0x1_0000_0000, tail);
      assert [] + f.Body() + tail == f.Body() + tail;
  }

  lemma ReadString(c: Codec, kind: byte, bytes: seq<byte>, tail: seq<byte>)
    requires (kind == 6 || kind == 7) && |bytes| < 0x1_0000
    ensures ReadValue(c, kind, EncodeU16(|bytes|) + bytes + tail)
         == Value(Some(if kind == 7 then HText(c.text(bytes)) else HBytes(bytes)), 2 + |bytes|)
  {
    var b := EncodeU16(|bytes|) + bytes + tail;
    U16At([], |bytes|, bytes + tail);
    assert [] + EncodeU16(|bytes|) + (bytes + tail) == b;
    assert b[2..2 + |bytes|] == bytes;
  }

  lemma ReadEncodedValue(c: Codec, f: Field, tail: seq<byte>)
    requires f.Valid()
    ensures ReadValue(c, f.Kind(), f.Body() + tail) == Value(f.Meaning(c), |f.Body()|)
  {
    if f.FByte? || f.FShort? || f.FInt? {
      ReadNumber(c, f, tail);
    } else if f.FBytes? || f.FText? {
      ReadString(c, f.Kind(), f.bytes, tail);
    }
  }

  lemma ReadEncodedHeader(c: Codec, h: Header, tail: seq<byte>)
    requires h.Valid()
    ensures ReadHeader(c, h.Encode() + tail) == OneHeader(c.text(h.name), h.field.Meaning(c), |h.Encode()|)
  {
    var b, n := h.Encode() + tail, |h.name|;
    assert b[0] == n && b[1 + n] == h.field.Kind();
    assert b[1..1 + n] == h.name;
    assert b[2 + n..] == h.field.Body() + tail;
    ReadEncodedValue(c, h.field, tail);
  }

  lemma {:induction false} ReadEncodedHeaders(
      c: Codec, hs: seq<Header>, names: set<string>, acc: map<string, HeaderValue>)
    requires AllValid(hs) && DistinctNames(c, hs, names)
    ensures ReadHeaders(c, EncodeHeaders(hs), names, acc) == Ok(Meanings(c, hs, acc))
    decreases |hs|
  {
    if hs != [] {
      var h, tail := hs[0], EncodeHeaders(hs[1..]);
      ReadEncodedHeader(c, h, tail);
      assert (h.Encode() + tail)[|h.Encode()|..] == tail;
      ReadEncodedHeaders(c, hs[1..], names + {c.text(h.name)}, Store(acc, c.text(h.name), h.field.Meaning(c)));
    }
  }

  lemma PreludeFields(crc: Checksum, total: u32, headers: u32, tail: seq<byte>)
    ensures var b := EncodePrelude(crc, total, headers) + tail;
            U32(b, 0) == total && U32(b, 4) == headers && U32(b, 8) == crc(b[..8])
  {
    var t, h := EncodeU32(total), EncodeU32(headers);
    var k := EncodeU32(crc(t + h));
    var b := EncodePrelude(crc, total, headers) + tail;
    assert b == [] + t + (h + k + tail) == t + h + (k + tail) == (t + h) + k + tail;
    U32At([], total, h + k + tail);
    U32At(t, headers, k + tail);
    U32At(t + h, crc(t + h), tail);
    assert b[..8] == t + h;
  }

  /** Where the parts of an encoded frame lie. */
  lemma FrameLayout(crc: Checksum, hs: seq<Header>, payload: seq<byte>)
    requires Encodable(hs, payload)
    ensures var f, h := EncodeFrame(crc, hs, payload), EncodeHeaders(hs);
            && ChecksOk(crc, f)
            && |f| == 16 + |h| + |payload| && U32(f, 4) == |h|
            && f[12..12 + |h|] == h && f[12 + |h|..|f| - 4] == payload
  {
    hide U32, EncodeU32, EncodePrelude, EncodeHeaders;
    var f, h := EncodeFrame(crc, hs, payload), EncodeHeaders(hs);
    var pre := EncodePrelude(crc, 16 + |h| + |payload|, |h|);
    var body := pre + h + payload;
    var last := EncodeU32(crc(body));
    assert f == pre + (h + payload + last) == body + last + [];
    PreludeFields(crc, 16 + |h| + |payload|, |h|, h + payload + last);
    U32At(body, crc(body), []);
    assert f[..|f| - 4] == body;
  }

  /** Names not yet seen keep what `acc` says about the others. */
  lemma {:induction false} MeaningsElsewhere(
      c: Codec, hs: seq<Header>, names: set<string>, acc: map<string, HeaderValue>, n: string)
    requires DistinctNames(c, hs, names) && n in names
    ensures n in Meanings(c, hs, acc) <==> n in acc
    ensures n in acc ==> Meanings(c, hs, acc)[n] == acc[n]
    decreases |hs|
  {
    if hs != [] {
      var name := c.text(hs[0].name);
      MeaningsElsewhere(c, hs[1..], names + {name}, Store(acc, name, hs[0].field.Meaning(c)), n);
    }
  }

  /** Every header is found under its name with its value; one of a skipped type is found nowhere. */
  lemma {:induction false} HeadersByName(
      c: Codec, hs: seq<Header>, names: set<string>, acc: map<string, HeaderValue>, i: nat)
    requires DistinctNames(c, hs, names) && i < |hs| && acc.Keys <= names
    ensures var n, v, m := c.text(hs[i].name), hs[i].field.Meaning(c), Meanings(c, hs, acc);
            if v.Some? then n in m && m[n] == v.value else n !in m
    decreases |hs|
  {
    var name := c.text(hs[0].name);
    var next := Store(acc, name, hs[0].field.Meaning(c));
    if i == 0 {
      MeaningsElsewhere(c, hs[1..], names + {name}, next, name);
    } else {
      HeadersByName(c, hs[1..], names + {name}, next, i - 1);
    }
  }

  /** What a payload's bytes mean: nothing when empty or blank, else the JSON value; None when it is no JSON. */
  function PayloadMeaning(c: Codec, payload: seq<byte>): Option<Option<Json>>
  {
    var text := c.text(payload);
    if payload == [] || c.blank(text) then Some(None)
    else if c.json(text).None? then None
    else Some(c.json(text))
  }

  lemma PayloadReads(c: Codec, payload: seq<byte>)
    ensures var m := PayloadMeaning(c, payload);
            if m.Some? then ReadPayload(c, payload) == Ok(m.value) else ReadPayload(c, payload).Err?
  {
  }

  /** Decoding an encoded frame yields its headers by name and its payload, or fails if that is no JSON. */
  lemma FrameRoundTrip(c: Codec, hs: seq<Header>, payload: seq<byte>)
    requires Encodable(hs, payload) && DistinctNames(c, hs, {})
    ensures var m, r := PayloadMeaning(c, payload), ParseFrame(c, EncodeFrame(c.crc, hs, payload));
            if m.Some? then r == Ok(Event(Meanings(c, hs, map[]), m.value)) else r.Err?
  {
    hide ChecksOk, EncodeFrame, EncodeHeaders, ReadHeaders, ReadPayload, Meanings, PayloadMeaning;
    FrameLayout(c.crc, hs, payload);
    ReadEncodedHeaders(c, hs, {}, map[]);
    PayloadReads(c, payload);
  }

  lemma EncodedFrameDelimits(crc: Checksum, hs: seq<Header>, payload: seq<byte>)
    requires Encodable(hs, payload)
    ensures SelfDelimiting(FrameLook(crc), EncodeFrame(crc, hs, payload))
  {
    var f := EncodeFrame(crc, hs, payload);
    FrameLayout(crc, hs, payload);
    assert f + [] == f;
    forall tail ensures FrameLook(crc)(f + tail) == Frame(|f|) {
      PreludeExtends(crc, f, tail);
    }
  }

  // ----- and accepts nothing else -----

  function FieldOf(kind: byte, b: seq<byte>, width: nat): Field
    requires width <= |b| && kind <= 9
    requires kind == 2 ==> width == 1
    requires kind == 3 ==> width == 2
    requires kind == 4 ==> width == 4
    requires kind == 6 || kind == 7 ==> width >= 2
  {
    if kind == 0 || kind == 1 then FBool(kind == 0)
    else if kind == 2 then FByte(Signed(b[0], 0x100))
    else if kind == 3 then FShort(Signed(U16(b, 0), 0x1_0000))
    else if kind == 4 then FInt(Signed(U32(b, 0), 0x1_0000_0000))
    else if kind == 5 then FLong(b[..width])
    else if kind == 6 then FBytes(b[2..width])
    else if kind == 7 then FText(b[2..width])
    else if kind == 8 then FTime(b[..width])
    else FUuid(b[..width])
  }

  lemma NumberIsEncoded(b: seq<byte>, kind: byte)
    requires (kind == 2 && |b| == 1) || (kind == 3 && |b| == 2) || (kind == 4 && |b| == 4)
    ensures var f := FieldOf(kind, b, |b|); f.Valid() && f.Body() == b
  {
    hide Be, ToBe, U16, U32, EncodeU16, EncodeU32;
    if kind == 3 {
      U16ReadsBack(b, 0);
    } else if kind == 4 {
      U32ReadsBack(b, 0);
    }
  }

  lemma StringIsEncoded(b: seq<byte>, kind: byte)
    requires (kind == 6 || kind == 7) && |b| >= 2 && |b| == 2 + U16(b, 0)
    ensures var f := FieldOf(kind, b, |b|); f.Valid() && f.Body() == b
  {
    U16ReadsBack(b, 0);
    assert b == b[..2] + b[2..];
  }

  lemma ValueIsEncoded(c: Codec, kind: byte, b: seq<byte>) returns (f: Field)
    requires ReadValue(c, kind, b).Value?
    ensures f.Valid() && f.Kind() == kind && f.Body() == b[..ReadValue(c, kind, b).width]
  {
    var v := b[..ReadValue(c, kind, b).width];
    f := FieldOf(kind, v, |v|);
    assert |v| >= 2 ==> v[0..HALF] == b[0..HALF];
    if 2 <= kind <= 4 {
      NumberIsEncoded(v, kind);
    } else if 6 <= kind <= 7 {
      StringIsEncoded(v, kind);
    }
  }

  lemma HeaderIsEncoded(c: Codec, b: seq<byte>) returns (h: Header)
    requires b != [] && ReadHeader(c, b).OneHeader?
    ensures h.Valid() && h.Encode() == b[..ReadHeader(c, b).width] && c.text(h.name) == ReadHeader(c, b).name
  {
    var n: int := b[0];
    var f := ValueIsEncoded(c, b[1 + n], b[2 + n..]);
    h := Header(b[1..1 + n], f);
  }

  lemma {:induction false} HeadersAreEncoded(
      c: Codec, b: seq<byte>, names: set<string>, acc: map<string, HeaderValue>) returns (hs: seq<Header>)
    requires ReadHeaders(c, b, names, acc).Ok?
    ensures AllValid(hs) && DistinctNames(c, hs, names) && EncodeHeaders(hs) == b
    decreases |b|
  {
    hide ReadHeader;
    if b == [] {
      hs := [];
    } else {
      var r := ReadHeader(c, b);
      var h := HeaderIsEncoded(c, b);
      var tail := HeadersAreEncoded(c, b[r.width..], names + {r.name}, Store(acc, r.name, r.stored));
      hs := [h] + tail;
      assert hs[1..] == tail;
    }
  }

  lemma PreludeIsEncoded(crc: Checksum, data: seq<byte>)
    requires |data| >= 12 && U32(data, 8) == crc(data[..8])
    ensures EncodePrelude(crc, U32(data, 0), U32(data, 4)) == data[..12]
  {
    U32ReadsBack(data, 0);
    U32ReadsBack(data, 4);
    U32ReadsBack(data, 8);
    assert data[..4] + data[4..8] == data[..8];
    assert data[..8] + data[8..12] == data[..12];
  }

  /** Every accepted frame is the encoding of some header list, with distinct names, and payload. */
  lemma AcceptedIsEncoded(c: Codec, data: seq<byte>) returns (hs: seq<Header>, payload: seq<byte>)
    requires ParseFrame(c, data).Ok?
    ensures Encodable(hs, payload) && DistinctNames(c, hs, {}) && data == EncodeFrame(c.crc, hs, payload)
  {
    hide U32, EncodeU32, EncodePrelude, EncodeHeaders, ReadHeaders, ReadPayload;
    var end, last := 12 + U32(data, 4), |data| - 4;
    payload := data[end..last];
    hs := HeadersAreEncoded(c, data[12..end], {}, map[]);
    PreludeIsEncoded(c.crc, data);
    U32ReadsBack(data, last);
    assert data[..12] + data[12..end] + payload == data[..last];
    assert data == data[..last] + data[last..];
  }

  /** A frame that was accepted is rejected after any damage confined to 32 consecutive bits of its body. */
  lemma DamagedFrameRejected(c: Codec, data: seq<byte>, damaged: seq<byte>,
                             pre: seq<bool>, w: seq<bool>, v: seq<bool>, s: seq<bool>)
    requires c.crc == Crc32.Crc && ParseFrame(c, data).Ok?
    requires |damaged| == |data| && damaged[|data| - 4..] == data[|data| - 4..]
    requires Crc32.MessageBits(data[..|data| - 4]) == pre + w + s
    requires Crc32.MessageBits(damaged[..|data| - 4]) == pre + v + s
    requires |w| == |v| <= 32 && w != v
    ensures ParseFrame(c, damaged).Err?
  {
    hide ReadHeaders, ReadPayload, Crc32.Crc, Crc32.MessageBits, Be;
    Crc32.BurstDetected(data[..|data| - 4], damaged[..|data| - 4], pre, w, v, s);
    assert data[|data| - 4..|data| - 4 + WORD] == damaged[|data| - 4..|data| - 4 + WORD];
  }
}
