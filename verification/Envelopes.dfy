/** Length-prefixed envelopes: Connect frames (Devin, Cursor AgentService) and gRPC-Web frames (Windsurf). */
module Envelopes {
  import opened Bytes
  import opened Framing

  /** One flag byte, a 32-bit big-endian length, the data. */
  function Envelope(flag: byte, data: seq<byte>): seq<byte>
    requires |data| < 0x1_0000_0000
  {
    [flag] + EncodeU32(|data|) + data
  }

  /** The largest length a reader takes, and whether it gives up or just waits when a longer one is announced. */
  datatype Limit = Limit(max: nat, refuses: bool)

  function EnvelopeLook(l: Limit): seq<byte> -> Look
  {
    b => HeaderLook(l, b)
  }

  function HeaderLook(l: Limit, b: seq<byte>): Look
  {
    if |b| < 5 then More
    else if U32(b, 1) > l.max then (if l.refuses then Bad else More)
    else if |b| < 5 + U32(b, 1) then More
    else Frame(5 + U32(b, 1))
  }

  lemma HeaderExtends(l: Limit, a: seq<byte>, b: seq<byte>)
    requires !HeaderLook(l, a).More?
    ensures HeaderLook(l, a + b) == HeaderLook(l, a)
  {
    hide Be;
    assert (a + b)[1..1 + WORD] == a[1..1 + WORD];
  }

  lemma EnvelopeLookIsStable(l: Limit)
    ensures Stable(EnvelopeLook(l)) && EnvelopeLook(l)([]).More?
  {
    forall a, b | !EnvelopeLook(l)(a).More? ensures EnvelopeLook(l)(a + b) == EnvelopeLook(l)(a) {
      HeaderExtends(l, a, b);
    }
  }

  /** What a reader makes of one frame. */
  datatype Unpacked<M> = Message(m: M) | Skipped | Corrupt

  /** Messages in order; `corrupt` once a frame could not be unpacked. */
  datatype Inbox<M> = Inbox(messages: seq<M>, corrupt: bool)

  datatype Reader<!M> = Reader(limit: Limit, unpack: (byte, seq<byte>) -> Unpacked<M>)

  function Take<M>(r: Reader<M>, box: Inbox<M>, frame: seq<byte>): (Inbox<M>, bool)
  {
    if |frame| < 5 then (box.(corrupt := true), false)
    else match r.unpack(frame[0], frame[5..])
      case Message(m) => (Inbox(box.messages + [m], box.corrupt), true)
      case Skipped => (box, true)
      case Corrupt => (box.(corrupt := true), false)
  }

  function DecoderOf<M>(r: Reader<M>): Decoder<Inbox<M>, byte>
  {
    Decoder(EnvelopeLook(r.limit), (box, frame) => Take(r, box, frame), (box: Inbox<M>) => Inbox(box.messages, true))
  }

  /** One parse of a buffer: the complete frames, and the undecoded rest. */
  function Parse<M>(r: Reader<M>, box: Inbox<M>, buffer: seq<byte>): Run<Inbox<M>, byte>
  {
    EnvelopeLookIsStable(r.limit);
    Drain(DecoderOf(r), box, buffer)
  }

  /** The frame loop, by offset. */
  method ParseFrames<M>(r: Reader<M>, start: Inbox<M>, buffer: seq<byte>) returns (run: Run<Inbox<M>, byte>)
    ensures run == Parse(r, start, buffer)
  {
    hide HeaderLook, Take;
    EnvelopeLookIsStable(r.limit);
    var box, offset := start, 0;
    while true
      invariant 0 <= offset <= |buffer|
      invariant Parse(r, box, buffer[offset..]) == Parse(r, start, buffer)
      decreases |buffer| - offset
    {
      var rest := buffer[offset..];
      var look := HeaderLook(r.limit, rest);
      assert look == EnvelopeLook(r.limit)(rest);
      if look.More? {
        return Run(box, rest, false);
      }
      if look.Bad? {
        return Run(Inbox(box.messages, true), rest, true);
      }
      assert 0 < look.size <= |rest|;
      var (next, go) := Take(r, box, rest[..look.size]);
      assert rest[look.size..] == buffer[offset + look.size..];
      if !go {
        return Run(next, rest[look.size..], true);
      }
      box, offset := next, offset + look.size;
    }
  }

  /** The pending loop: what was left undecoded is carried over to the next read. */
  method ReadAll<M>(r: Reader<M>, chunks: seq<seq<byte>>) returns (run: Run<Inbox<M>, byte>)
    ensures run == Deliver'(r, Run(Inbox([], false), [], false), chunks)
  {
    hide Parse;
    run := Run(Inbox([], false), [], false);
    var i := 0;
    while i < |chunks| && !run.stopped
      invariant 0 <= i <= |chunks|
      invariant Deliver'(r, run, chunks[i..]) == Deliver'(r, Run(Inbox([], false), [], false), chunks)
    {
      DeliverOnce(r, run, chunks[i..]);
      assert chunks[i..][1..] == chunks[i + 1..];
      run := ParseFrames(r, run.st, run.rest + chunks[i]);
      i := i + 1;
    }
    DeliverStops(r, run, chunks[i..]);
  }

  function Deliver'<M>(r: Reader<M>, run: Run<Inbox<M>, byte>, chunks: seq<seq<byte>>): Run<Inbox<M>, byte>
  {
    EnvelopeLookIsStable(r.limit);
    Deliver(DecoderOf(r), run, chunks)
  }

  lemma DeliverOnce<M>(r: Reader<M>, run: Run<Inbox<M>, byte>, chunks: seq<seq<byte>>)
    requires chunks != [] && !run.stopped
    ensures Deliver'(r, run, chunks) == Deliver'(r, Parse(r, run.st, run.rest + chunks[0]), chunks[1..])
  {
    EnvelopeLookIsStable(r.limit);
  }

  lemma DeliverStops<M>(r: Reader<M>, run: Run<Inbox<M>, byte>, chunks: seq<seq<byte>>)
    requires chunks == [] || run.stopped
    ensures Deliver'(r, run, chunks) == run
  {
    EnvelopeLookIsStable(r.limit);
  }

  // ----- round trip under any chunking -----

  lemma EnvelopeDelimits(l: Limit, flag: byte, data: seq<byte>)
    requires |data| <= l.max && |data| < 0x1_0000_0000
    ensures SelfDelimiting(EnvelopeLook(l), Envelope(flag, data))
  {
    hide Be, U32, EncodeU32;
    var f := Envelope(flag, data);
    forall tail ensures EnvelopeLook(l)(f + tail) == Frame(|f|) {
      assert f + tail == [flag] + EncodeU32(|data|) + (data + tail);
      U32At([flag], |data|, data + tail);
    }
  }

  datatype Packed = Packed(flag: byte, data: seq<byte>)

  predicate Sendable<M>(r: Reader<M>, p: Packed)
  {
    |p.data| <= r.limit.max && |p.data| < 0x1_0000_0000 && !r.unpack(p.flag, p.data).Corrupt?
  }

  predicate AllSendable<M>(r: Reader<M>, ps: seq<Packed>)
  {
    forall p :: p in ps ==> Sendable(r, p)
  }

  function Frames<M>(r: Reader<M>, ps: seq<Packed>): seq<seq<byte>>
    requires AllSendable(r, ps)
  {
    if ps == [] then [] else assert ps[0] in ps; [Envelope(ps[0].flag, ps[0].data)] + Frames(r, ps[1..])
  }

  function Unpack<M>(r: Reader<M>, ps: seq<Packed>, acc: seq<M>): seq<M>
    decreases |ps|
  {
    if ps == [] then acc
    else
      var u := r.unpack(ps[0].flag, ps[0].data);
      Unpack(r, ps[1..], if u.Message? then acc + [u.m] else acc)
  }

  lemma TakeEnvelope<M>(r: Reader<M>, box: Inbox<M>, p: Packed)
    requires Sendable(r, p)
    ensures var u := r.unpack(p.flag, p.data);
            Take(r, box, Envelope(p.flag, p.data))
              == (Inbox(if u.Message? then box.messages + [u.m] else box.messages, box.corrupt), true)
  {
    var f := Envelope(p.flag, p.data);
    assert f[0] == p.flag && f[5..] == p.data;
  }

  lemma {:induction false} StepsUnpack<M>(r: Reader<M>, box: Inbox<M>, ps: seq<Packed>)
    requires AllSendable(r, ps)
    ensures StepAll(DecoderOf(r), box, Frames(r, ps)) == (Inbox(Unpack(r, ps, box.messages), box.corrupt), true)
    ensures forall f :: f in Frames(r, ps) ==> SelfDelimiting(EnvelopeLook(r.limit), f)
    decreases |ps|
  {
    hide Take, Envelope, HeaderLook, SelfDelimiting;
    if ps != [] {
      var u := r.unpack(ps[0].flag, ps[0].data);
      assert Sendable(r, ps[0]);
      TakeEnvelope(r, box, ps[0]);
      EnvelopeDelimits(r.limit, ps[0].flag, ps[0].data);
      StepsUnpack(r, Inbox(if u.Message? then box.messages + [u.m] else box.messages, box.corrupt), ps[1..]);
      assert Frames(r, ps)[1..] == Frames(r, ps[1..]);
    }
  }

  /** However the framed stream is cut, exactly the framed messages come out, in order, and only the tail is kept. */
  lemma EnvelopesRoundTrip<M>(r: Reader<M>, ps: seq<Packed>, tail: seq<byte>, chunks: seq<seq<byte>>)
    requires AllSendable(r, ps) && HeaderLook(r.limit, tail).More?
    requires Concat(chunks) == Concat(Frames(r, ps)) + tail
    ensures Deliver'(r, Run(Inbox([], false), [], false), chunks) == Run(Inbox(Unpack(r, ps, []), false), tail, false)
  {
    hide Take, HeaderLook, Frames, Unpack;
    EnvelopeLookIsStable(r.limit);
    var d := DecoderOf(r);
    var empty := Inbox([], false);
    StepsUnpack(r, empty, ps);
    DrainFrames(d, empty, Frames(r, ps), tail);
    DeliverIsDrain(d, Run(empty, [], false), chunks);
    assert [] + Concat(chunks) == Concat(Frames(r, ps)) + tail;
    assert EnvelopeLook(r.limit)(tail) == HeaderLook(r.limit, tail);
  }

  /** A strict prefix of any frame the reader takes is only waited for. */
  lemma StrictPrefixWaits(l: Limit, flag: byte, data: seq<byte>, n: nat)
    requires |data| <= l.max && |data| < 0x1_0000_0000 && n < |Envelope(flag, data)|
    ensures HeaderLook(l, Envelope(flag, data)[..n]).More?
  {
    hide Be, U32, EncodeU32;
    var f := Envelope(flag, data);
    var p := f[..n];
    if n >= 5 {
      assert p == [flag] + EncodeU32(|data|) + f[5..n];
      U32At([flag], |data|, f[5..n]);
    }
  }

  /** A header announcing more than the limit, whatever follows it. */
  ghost predicate Oversized(l: Limit, b: seq<byte>)
  {
    exists flag: byte, size: nat, more: seq<byte> ::
      l.max < size < 0x1_0000_0000 && b == [flag] + EncodeU32(size) + more
  }

  lemma OversizedLook(l: Limit, b: seq<byte>)
    requires Oversized(l, b)
    ensures HeaderLook(l, b) == if l.refuses then Bad else More
  {
    hide Be, U32, EncodeU32;
    var flag: byte, size: nat, more: seq<byte> :|
      l.max < size < 0x1_0000_0000 && b == [flag] + EncodeU32(size) + more;
    U32At([flag], size, more);
  }

  /**
   * A length above the limit lets nothing through that was not framed before it: a refusing reader fails there,
   * the others have delivered what came before and wait for good.
   */
  lemma OversizeStopsReading<M>(r: Reader<M>, ps: seq<Packed>, tail: seq<byte>, chunks: seq<seq<byte>>)
    requires AllSendable(r, ps) && Oversized(r.limit, tail)
    requires Concat(chunks) == Concat(Frames(r, ps)) + tail
    ensures var run := Deliver'(r, Run(Inbox([], false), [], false), chunks);
            && run.st.corrupt == run.stopped == r.limit.refuses && run.st.messages <= Unpack(r, ps, [])
            && (!run.stopped ==> run.st.messages == Unpack(r, ps, []) && run.rest == tail)
  {
    hide Take, HeaderLook, Frames, Unpack, Oversized;
    EnvelopeLookIsStable(r.limit);
    var d := DecoderOf(r);
    var empty := Inbox([], false);
    OversizedLook(r.limit, tail);
    StepsUnpack(r, empty, ps);
    DrainFrames(d, empty, Frames(r, ps), tail);
    DeliverIsDrain(d, Run(empty, [], false), chunks);
    assert [] + Concat(chunks) == Concat(Frames(r, ps)) + tail;
    assert EnvelopeLook(r.limit)(tail) == HeaderLook(r.limit, tail);
  }

  // ----- the three readers -----

  type Gzip = seq<byte> -> seq<byte>
  type Gunzip = seq<byte> -> Option<seq<byte>>

  ghost predicate Inverse(gzip: Gzip, gunzip: Gunzip)
  {
    forall x :: gunzip(gzip(x)) == Some(x)
  }

  const DEVIN_MAX := 16 * 1024 * 1024

  datatype ConnectFrame = ConnectFrame(trailer: bool, compressed: bool, payload: seq<byte>)

  predicate Compressed(flag: byte) { flag % 2 == 1 }
  predicate Trailer(flag: byte) { flag / 2 % 2 == 1 }

  function Inflate(gunzip: Gunzip, flag: byte, data: seq<byte>): Option<seq<byte>>
  {
    if Compressed(flag) then gunzip(data) else Some(data)
  }

  function UnpackConnect(gunzip: Gunzip, flag: byte, data: seq<byte>): Unpacked<ConnectFrame>
  {
    match Inflate(gunzip, flag, data)
    case Some(payload) => Message(ConnectFrame(Trailer(flag), Compressed(flag), payload))
    case None => Corrupt
  }

  function DevinReader(gunzip: Gunzip): Reader<ConnectFrame>
  {
    Reader(Limit(DEVIN_MAX, true), (flag, data) => UnpackConnect(gunzip, flag, data))
  }

  /** frameDevinConnect */
  function PackDevin(gzip: Gzip, f: ConnectFrame): Packed
  {
    Packed((if f.compressed then 1 else 0) + (if f.trailer then 2 else 0),
           if f.compressed then gzip(f.payload) else f.payload)
  }

  function PackAll(gzip: Gzip, fs: seq<ConnectFrame>): (ps: seq<Packed>)
    ensures |ps| == |fs|
  {
    seq(|fs|, i requires 0 <= i < |fs| => PackDevin(gzip, fs[i]))
  }

  lemma UnpackDevin(gzip: Gzip, gunzip: Gunzip, f: ConnectFrame)
    requires Inverse(gzip, gunzip)
    ensures var p := PackDevin(gzip, f); DevinReader(gunzip).unpack(p.flag, p.data) == Message(f)
  {
    var flag := PackDevin(gzip, f).flag;
    assert Compressed(flag) == f.compressed && Trailer(flag) == f.trailer;
    assert gunzip(gzip(f.payload)) == Some(f.payload);
  }

  lemma {:induction false} UnpackDevinAll(gzip: Gzip, gunzip: Gunzip, fs: seq<ConnectFrame>, acc: seq<ConnectFrame>)
    requires Inverse(gzip, gunzip)
    ensures Unpack(DevinReader(gunzip), PackAll(gzip, fs), acc) == acc + fs
    decreases |fs|
  {
    hide DevinReader;
    if fs == [] {
      assert acc + fs == acc;
    } else {
      UnpackDevin(gzip, gunzip, fs[0]);
      assert PackAll(gzip, fs)[1..] == PackAll(gzip, fs[1..]);
      UnpackDevinAll(gzip, gunzip, fs[1..], acc + [fs[0]]);
      assert acc + [fs[0]] + fs[1..] == acc + fs;
    }
  }

  /** Devin: what frameDevinConnect wrote is what the pending loop reads, however the stream is cut. */
  lemma DevinRoundTrip(gzip: Gzip, gunzip: Gunzip, fs: seq<ConnectFrame>, tail: seq<byte>, chunks: seq<seq<byte>>)
    requires Inverse(gzip, gunzip)
    requires forall i :: 0 <= i < |fs| ==> |PackDevin(gzip, fs[i]).data| <= DEVIN_MAX
    requires HeaderLook(Limit(DEVIN_MAX, true), tail).More?
    ensures AllSendable(DevinReader(gunzip), PackAll(gzip, fs))
    ensures Concat(chunks) == Concat(Frames(DevinReader(gunzip), PackAll(gzip, fs))) + tail ==>
              Deliver'(DevinReader(gunzip), Run(Inbox([], false), [], false), chunks)
                == Run(Inbox(fs, false), tail, false)
  {
    var r, ps := DevinReader(gunzip), PackAll(gzip, fs);
    forall p | p in ps ensures Sendable(r, p) {
      var i :| 0 <= i < |ps| && ps[i] == p;
      UnpackDevin(gzip, gunzip, fs[i]);
    }
    hide HeaderLook, Frames, Take, Deliver', DevinReader;
    if Concat(chunks) == Concat(Frames(r, ps)) + tail {
      assert r.limit == Limit(DEVIN_MAX, true) by { DevinLimit(gunzip); }
      EnvelopesRoundTrip(r, ps, tail, chunks);
      UnpackDevinAll(gzip, gunzip, fs, []);
      assert [] + fs == fs;
    }
  }

  lemma DevinLimit(gunzip: Gunzip)
    ensures DevinReader(gunzip).limit == Limit(DEVIN_MAX, true)
  {
  }

  /** Windsurf: a length with its top bit set is negative in the source and is waited on for ever. */
  function WindsurfReader(): Reader<Packed>
  {
    Reader(Limit(0x7FFF_FFFF, false), (flag: byte, data: seq<byte>) => Message(Packed(flag, data)))
  }

  lemma {:induction false} UnpackWindsurf(ps: seq<Packed>, acc: seq<Packed>)
    ensures Unpack(WindsurfReader(), ps, acc) == acc + ps
    decreases |ps|
  {
    if ps == [] {
      assert acc + ps == acc;
    } else {
      UnpackWindsurf(ps[1..], acc + [ps[0]]);
      assert acc + [ps[0]] + ps[1..] == acc + ps;
    }
  }

  /** Windsurf: every frame below 2^31 bytes comes out once, in order, with its flag. */
  lemma WindsurfRoundTrip(ps: seq<Packed>, tail: seq<byte>, chunks: seq<seq<byte>>)
    requires forall p :: p in ps ==> |p.data| <= 0x7FFF_FFFF
    requires HeaderLook(WindsurfReader().limit, tail).More?
    ensures AllSendable(WindsurfReader(), ps)
    ensures Concat(chunks) == Concat(Frames(WindsurfReader(), ps)) + tail ==>
              Deliver'(WindsurfReader(), Run(Inbox([], false), [], false), chunks) == Run(Inbox(ps, false), tail, false)
  {
    var r := WindsurfReader();
    assert AllSendable(r, ps);
    hide HeaderLook, Frames, Take, Deliver', WindsurfReader;
    if Concat(chunks) == Concat(Frames(r, ps)) + tail {
      EnvelopesRoundTrip(r, ps, tail, chunks);
      UnpackWindsurf(ps, []);
      assert [] + ps == ps;
    }
  }

  /** Cursor AgentService: no length limit, trailers dropped after decompression. */
  function UnpackAgent(gunzip: Gunzip, flag: byte, data: seq<byte>): Unpacked<seq<byte>>
  {
    match Inflate(gunzip, flag, data)
    case None => Corrupt
    case Some(payload) => if Trailer(flag) then Skipped else Message(payload)
  }

  function AgentReader(gunzip: Gunzip): Reader<seq<byte>>
  {
    Reader(Limit(0xFFFF_FFFF, true), (flag, data) => UnpackAgent(gunzip, flag, data))
  }

  /** The payloads of the frames that are not trailers, after `acc`. */
  function Bodies(fs: seq<ConnectFrame>, acc: seq<seq<byte>>): seq<seq<byte>>
    decreases |fs|
  {
    if fs == [] then acc else Bodies(fs[1..], if fs[0].trailer then acc else acc + [fs[0].payload])
  }

  lemma {:induction false} UnpackAgentAll(gzip: Gzip, gunzip: Gunzip, fs: seq<ConnectFrame>, acc: seq<seq<byte>>)
    requires Inverse(gzip, gunzip)
    ensures Unpack(AgentReader(gunzip), PackAll(gzip, fs), acc) == Bodies(fs, acc)
    decreases |fs|
  {
    hide AgentReader;
    if fs != [] {
      UnpackAgentOne(gzip, gunzip, fs[0]);
      assert PackAll(gzip, fs)[1..] == PackAll(gzip, fs[1..]);
      UnpackAgentAll(gzip, gunzip, fs[1..], if fs[0].trailer then acc else acc + [fs[0].payload]);
    }
  }

  lemma UnpackAgentOne(gzip: Gzip, gunzip: Gunzip, f: ConnectFrame)
    requires Inverse(gzip, gunzip)
    ensures var p := PackDevin(gzip, f);
            AgentReader(gunzip).unpack(p.flag, p.data) == if f.trailer then Skipped else Message(f.payload)
  {
    var flag := PackDevin(gzip, f).flag;
    assert Compressed(flag) == f.compressed && Trailer(flag) == f.trailer;
    assert gunzip(gzip(f.payload)) == Some(f.payload);
  }

  /** Cursor: the bodies of the non-trailer frames come out in order, however the stream is cut. */
  lemma AgentRoundTrip(gzip: Gzip, gunzip: Gunzip, fs: seq<ConnectFrame>, tail: seq<byte>, chunks: seq<seq<byte>>)
    requires Inverse(gzip, gunzip)
    requires forall i :: 0 <= i < |fs| ==> |PackDevin(gzip, fs[i]).data| <= 0xFFFF_FFFF
    requires HeaderLook(AgentReader(gunzip).limit, tail).More?
    ensures AllSendable(AgentReader(gunzip), PackAll(gzip, fs))
    ensures Concat(chunks) == Concat(Frames(AgentReader(gunzip), PackAll(gzip, fs))) + tail ==>
              Deliver'(AgentReader(gunzip), Run(Inbox([], false), [], false), chunks)
                == Run(Inbox(Bodies(fs, []), false), tail, false)
  {
    var r, ps := AgentReader(gunzip), PackAll(gzip, fs);
    forall p | p in ps ensures Sendable(r, p) {
      var i :| 0 <= i < |ps| && ps[i] == p;
      UnpackAgentOne(gzip, gunzip, fs[i]);
    }
    hide HeaderLook, Frames, Take, Deliver', AgentReader;
    if Concat(chunks) == Concat(Frames(r, ps)) + tail {
      EnvelopesRoundTrip(r, ps, tail, chunks);
      UnpackAgentAll(gzip, gunzip, fs, []);
    }
  }
}
