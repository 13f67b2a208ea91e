/** The byte-level run of a Kiro response: framing, buffering bound, heartbeats and the end of the stream. */
module KiroStream {
  import opened Bytes
  import opened Framing
  import opened EventStream
  import opened KiroStop
  import opened KiroTurn
  import opened KiroTurnProofs
  import opened KiroTools

  function FrameStep(e: Env, t: Turn, frame: seq<byte>): (Turn, bool)
  {
    match ParseFrame(e.codec, frame)
    case Err(_) => (Corrupt(t), false)
    case Ok(ev) => Step(e, t, ev)
  }

  function DecoderOf(e: Env): Decoder<Turn, byte>
  {
    Decoder(FrameLook(e.codec.crc), (t, f) => FrameStep(e, t, f), Corrupt)
  }

  /** The frame loop of processBytes. */
  function DrainBytes(e: Env, t: Turn, buf: seq<byte>): Run<Turn, byte>
  {
    LookIsStable(e.codec.crc);
    Drain(DecoderOf(e), t, buf)
  }

  /** What goes over the wire to the client. */
  datatype Wire = Sent(out: Out) | Heartbeat

  /** How the upstream read loop ended. */
  datatype Ending = EndOfStream | ReadError

  datatype Session = Session(run: Run<Turn, byte>, wire: seq<Wire>)

  function SentAll(outs: seq<Out>): seq<Wire>
  {
    seq(|outs|, i requires 0 <= i < |outs| => Sent(outs[i]))
  }

  /** The outputs a step added. */
  function Added(before: Turn, after: Turn): seq<Wire>
  {
    if |before.sink.outs| <= |after.sink.outs| then SentAll(after.sink.outs[|before.sink.outs|..]) else []
  }

  function Beat(before: Turn, after: Turn): seq<Wire>
  {
    if after.validatedFrames > before.validatedFrames && after.sink.chunkIndex == before.sink.chunkIndex
    then [Heartbeat] else []
  }

  /** processBytes on one chunk. */
  function Processed(e: Env, limit: nat, s: Session, chunk: seq<byte>): Session
  {
    var t := s.run.st;
    if |s.run.rest| + |chunk| > limit then
      Session(Run(Corrupt(t), s.run.rest, true), s.wire + Added(t, Corrupt(t)))
    else
      var r := DrainBytes(e, t, s.run.rest + chunk);
      Session(r, s.wire + Added(t, r.st))
  }

  /** One read of the upstream body: process the chunk, then perhaps a heartbeat. */
  function Consume(e: Env, limit: nat, s: Session, chunk: seq<byte>): Session
  {
    var p := Processed(e, limit, s, chunk);
    if p.run.stopped then p else Session(p.run, p.wire + Beat(s.run.st, p.run.st))
  }

  function ConsumeAll(e: Env, limit: nat, s: Session, chunks: seq<seq<byte>>): Session
    decreases |chunks|
  {
    if chunks == [] || s.run.stopped then s else ConsumeAll(e, limit, Consume(e, limit, s, chunks[0]), chunks[1..])
  }

  function EndTurn(e: Env, t: Turn, rest: seq<byte>, ending: Ending): Turn
  {
    if t.sink.finished then t
    else if ending.ReadError?
      then Fail(t, "upstream_read_error", "kiro_missing_terminal", "upstream_error", TerminalIncomplete)
    else FinishTurn(e, t, rest)
  }

  function Finalize(e: Env, s: Session, ending: Ending): Session
  {
    var t := EndTurn(e, s.run.st, s.run.rest, ending);
    Session(Run(t, s.run.rest, true), s.wire + Added(s.run.st, t))
  }

  const FRESH := Session(Run(START, [], false), [])

  /** A whole run over a body delivered in `chunks`. */
  function RunStream(e: Env, limit: nat, chunks: seq<seq<byte>>, ending: Ending): Session
  {
    Finalize(e, ConsumeAll(e, limit, FRESH, chunks), ending)
  }

  // ----- decoding is a run of events -----

  datatype Decoded = Decoded(events: seq<Event>, rest: seq<byte>, corrupt: bool)

  /** The frames of a byte string and the verdict about what follows them. */
  function DecodeAll(c: Codec, buf: seq<byte>): Decoded
    decreases |buf|
  {
    LookIsStable(c.crc);
    match FrameLook(c.crc)(buf)
    case More => Decoded([], buf, false)
    case Bad => Decoded([], buf, true)
    case Frame(n) =>
      match ParseFrame(c, buf[..n])
      case Err(_) => Decoded([], buf, true)
      case Ok(ev) =>
        var d := DecodeAll(c, buf[n..]);
        d.(events := [ev] + d.events)
  }

  datatype Message = Message(headers: seq<Header>, payload: seq<byte>)

  /** A message the encoder can write and the decoder can read. */
  predicate Readable(c: Codec, m: Message)
  {
    Encodable(m.headers, m.payload) && DistinctNames(c, m.headers, {}) && PayloadMeaning(c, m.payload).Some?
  }

  function Bodies(c: Codec, ms: seq<Message>): seq<byte>
    requires forall i :: 0 <= i < |ms| ==> Readable(c, ms[i])
  {
    if ms == [] then []
    else
      assert Readable(c, ms[0]);
      EncodeFrame(c.crc, ms[0].headers, ms[0].payload) + Bodies(c, ms[1..])
  }

  function Events(c: Codec, ms: seq<Message>): seq<Event>
    requires forall i :: 0 <= i < |ms| ==> Readable(c, ms[i])
  {
    if ms == [] then []
    else
      assert Readable(c, ms[0]);
      [Event(Meanings(c, ms[0].headers, map[]), PayloadMeaning(c, ms[0].payload).value)] + Events(c, ms[1..])
  }

  /** A body of encoded messages decodes to their events, with nothing left over. */
  lemma {:induction false} EncodedBodyDecodes(c: Codec, ms: seq<Message>)
    requires forall i :: 0 <= i < |ms| ==> Readable(c, ms[i])
    ensures DecodeAll(c, Bodies(c, ms)) == Decoded(Events(c, ms), [], false)
    decreases |ms|
  {
    hide EncodeFrame, ParseFrame, Meanings, PayloadMeaning, Prelude;
    LookIsStable(c.crc);
    if ms != [] {
      var m := ms[0];
      assert Readable(c, m);
      var f, rest := EncodeFrame(c.crc, m.headers, m.payload), Bodies(c, ms[1..]);
      EncodedFrameDelimits(c.crc, m.headers, m.payload);
      assert FrameLook(c.crc)(f + rest) == Frame(|f|);
      assert (f + rest)[..|f|] == f && (f + rest)[|f|..] == rest;
      FrameRoundTrip(c, m.headers, m.payload);
      EncodedBodyDecodes(c, ms[1..]);
    }
  }

  /** Reading bytes is running their events, then failing if the bytes were corrupt. */
  lemma {:induction false} DrainRunsEvents(e: Env, t: Turn, buf: seq<byte>)
    ensures var r, d := DrainBytes(e, t, buf), DecodeAll(e.codec, buf);
            var (t', go) := RunEvents(e, t, d.events);
            && r.st == (if go && d.corrupt then Corrupt(t') else t')
            && r.stopped == (!go || d.corrupt)
            && (!r.stopped ==> r.rest == d.rest)
    decreases |buf|
  {
    hide ParseFrame, Step, Corrupt, Prelude;
    LookIsStable(e.codec.crc);
    var look := FrameLook(e.codec.crc)(buf);
    if look.Frame? {
      var frame, rest := buf[..look.size], buf[look.size..];
      match ParseFrame(e.codec, frame)
      case Err(_) =>
      case Ok(ev) =>
        var (t', go) := Step(e, t, ev);
        assert ([ev] + DecodeAll(e.codec, rest).events)[1..] == DecodeAll(e.codec, rest).events;
        if go {
          DrainRunsEvents(e, t', rest);
        }
    }
  }

  // ----- one ending, nothing after it -----

  predicate Ended(k: Sink) { Succeeded(k) || Failed(k) }

  lemma FrameStepKeepsOpen(e: Env, t: Turn, frame: seq<byte>)
    requires Open(t.sink)
    ensures var (t', go) := FrameStep(e, t, frame); if go then Open(t'.sink) else Failed(t'.sink)
  {
    hide ParseFrame, Step, Open, Failed, Fail;
    FailTurnEnds(t, "corrupt_eventstream_frame", "kiro_missing_terminal", "corrupt_frame", TerminalIncomplete);
    if ParseFrame(e.codec, frame).Ok? {
      StepKeepsOpen(e, t, ParseFrame(e.codec, frame).value);
    }
  }

  lemma {:induction false} DrainKeepsOpen(e: Env, t: Turn, buf: seq<byte>)
    requires Open(t.sink)
    ensures var r := DrainBytes(e, t, buf); if r.stopped then Failed(r.st.sink) else Open(r.st.sink)
    decreases |buf|
  {
    hide FrameStep, Open, Failed, Fail, Prelude;
    FailTurnEnds(t, "corrupt_eventstream_frame", "kiro_missing_terminal", "corrupt_frame", TerminalIncomplete);
    LookIsStable(e.codec.crc);
    var look := FrameLook(e.codec.crc)(buf);
    if look.Frame? {
      FrameStepKeepsOpen(e, t, buf[..look.size]);
      var (t', go) := FrameStep(e, t, buf[..look.size]);
      if go {
        DrainKeepsOpen(e, t', buf[look.size..]);
      }
    }
  }

  predicate Grows(t: Turn, t': Turn) { t.sink.outs <= t'.sink.outs }

  lemma StepGrows(e: Env, t: Turn, ev: Event)
    ensures Grows(t, Step(e, t, ev).0)
  {
    hide ToolUseEvent, ReportedReason, StopWith;
  }

  lemma {:induction false} EmitToolsGrows(e: Env, k: Sink, tools: seq<Tool>)
    ensures k.outs <= EmitTools(e, k, tools).outs
    decreases |tools|
  {
    hide Usable;
    if tools != [] {
      match Usable(e, tools[0])
      case None => EmitToolsGrows(e, k, tools[1..]);
      case Some(input) => EmitToolsGrows(e, EmitCall(e, k, tools[0], input), tools[1..]);
    }
  }

  lemma EndGrows(e: Env, t: Turn, rest: seq<byte>, ending: Ending)
    ensures Grows(t, EndTurn(e, t, rest, ending))
  {
    hide StopDisposition, AnyUsable, AnyUnusable, EmitTools, ProvenanceOr, FinishReason, FailureCode;
    EmitToolsGrows(e, t.sink, t.buffered.tools);
  }

  lemma {:induction false} DrainGrows(e: Env, t: Turn, buf: seq<byte>)
    ensures Grows(t, DrainBytes(e, t, buf).st)
    decreases |buf|
  {
    hide ParseFrame, Step, Prelude;
    LookIsStable(e.codec.crc);
    var look := FrameLook(e.codec.crc)(buf);
    if look.Frame? && ParseFrame(e.codec, buf[..look.size]).Ok? {
      var ev := ParseFrame(e.codec, buf[..look.size]).value;
      StepGrows(e, t, ev);
      DrainGrows(e, Step(e, t, ev).0, buf[look.size..]);
    }
  }

  /** The outputs on the wire, heartbeats left out. */
  function SentOuts(w: seq<Wire>): seq<Out>
  {
    if w == [] then []
    else SentOuts(w[..|w| - 1]) + (if w[|w| - 1].Sent? then [w[|w| - 1].out] else [])
  }

  lemma {:induction false} SentOutsAll(w: seq<Wire>, outs: seq<Out>)
    ensures SentOuts(w + SentAll(outs)) == SentOuts(w) + outs
    decreases |outs|
  {
    if outs == [] {
      assert w + SentAll(outs) == w;
    } else {
      var n := |outs| - 1;
      var full := w + SentAll(outs);
      assert full[..|full| - 1] == w + SentAll(outs[..n]);
      SentOutsAll(w, outs[..n]);
      assert outs == outs[..n] + [outs[n]];
    }
  }

  lemma AddedOuts(w: seq<Wire>, t: Turn, t': Turn)
    requires SentOuts(w) == t.sink.outs && Grows(t, t')
    ensures SentOuts(w + Added(t, t')) == t'.sink.outs
    ensures |t'.sink.outs| > |t.sink.outs| ==>
              var a := w + Added(t, t'); |a| > 0 && a[|a| - 1] == Sent(t'.sink.outs[|t'.sink.outs| - 1])
  {
    SentOutsAll(w, t'.sink.outs[|t.sink.outs|..]);
  }

  /** The wire carries exactly the turn's outputs; once the turn has ended, its last output is the last thing sent. */
  predicate Consistent(s: Session)
  {
    var k := s.run.st.sink;
    && SentOuts(s.wire) == k.outs
    && (if s.run.stopped
        then Ended(k) && s.wire != [] && s.wire[|s.wire| - 1] == Sent(k.outs[|k.outs| - 1])
        else Open(k))
  }

  lemma OpenThenEndedGrew(t: Turn, t': Turn)
    requires Open(t.sink) && Ended(t'.sink) && Grows(t, t')
    ensures |t'.sink.outs| > |t.sink.outs|
  {
    assert !t'.sink.outs[|t'.sink.outs| - 1].Chunk?;
  }

  lemma BeatIsSilent(w: seq<Wire>, t: Turn, t': Turn)
    ensures SentOuts(w + Beat(t, t')) == SentOuts(w)
  {
    if Beat(t, t') == [] {
      assert w + Beat(t, t') == w;
    } else {
      assert (w + [Heartbeat])[..|w|] == w;
    }
  }

  lemma ConsumeConsistent(e: Env, limit: nat, s: Session, chunk: seq<byte>)
    requires Consistent(s) && !s.run.stopped
    ensures Consistent(Consume(e, limit, s, chunk))
  {
    hide DrainBytes, Open, Failed, Succeeded, SentOuts, Added, Beat, Fail, Grows;
    var t := s.run.st;
    if |s.run.rest| + |chunk| > limit {
      CorruptFails(t);
      CorruptGrows(t);
      OpenThenEndedGrew(t, Corrupt(t));
      AddedOuts(s.wire, t, Corrupt(t));
    } else {
      var r := DrainBytes(e, t, s.run.rest + chunk);
      DrainKeepsOpen(e, t, s.run.rest + chunk);
      DrainGrows(e, t, s.run.rest + chunk);
      AddedOuts(s.wire, t, r.st);
      if r.stopped {
        OpenThenEndedGrew(t, r.st);
      } else {
        BeatIsSilent(s.wire + Added(t, r.st), t, r.st);
      }
    }
  }

  lemma CorruptGrows(t: Turn)
    ensures Grows(t, Corrupt(t))
  {
  }

  lemma {:induction false} ConsumeAllConsistent(e: Env, limit: nat, s: Session, chunks: seq<seq<byte>>)
    requires Consistent(s)
    ensures Consistent(ConsumeAll(e, limit, s, chunks))
    decreases |chunks|
  {
    hide Consistent, Consume;
    if chunks != [] && !s.run.stopped {
      ConsumeConsistent(e, limit, s, chunks[0]);
      ConsumeAllConsistent(e, limit, Consume(e, limit, s, chunks[0]), chunks[1..]);
    }
  }

  lemma EndTurnEnds(e: Env, t: Turn, rest: seq<byte>, ending: Ending)
    requires Open(t.sink)
    ensures Ended(EndTurn(e, t, rest, ending).sink)
  {
    hide FinishTurn, Fail, Succeeded, Failed;
    FailTurnEnds(t, "upstream_read_error", "kiro_missing_terminal", "upstream_error", TerminalIncomplete);
    FinishEnds(e, t, rest);
  }

  lemma FinalizeConsistent(e: Env, s: Session, ending: Ending)
    requires Consistent(s)
    ensures Consistent(Finalize(e, s, ending))
  {
    hide FinishTurn, Fail, Open, SentOuts, Added, Grows;
    var t := s.run.st;
    EndGrows(e, t, s.run.rest, ending);
    AddedOuts(s.wire, t, EndTurn(e, t, s.run.rest, ending));
    if s.run.stopped {
      assert Added(t, t) == [] by { AddedNothing(t); }
      assert s.wire + [] == s.wire;
    } else {
      assert !t.sink.finished by { OpenIsUnfinished(t.sink); }
      EndTurnEnds(e, t, s.run.rest, ending);
      OpenThenEndedGrew(t, EndTurn(e, t, s.run.rest, ending));
    }
  }

  lemma AddedNothing(t: Turn)
    ensures Added(t, t) == []
  {
  }

  /**
   * Every run, however the body was cut and however reading ended, writes exactly one ending, reports exactly
   * one terminal state, and puts nothing on the wire after the ending.
   */
  lemma OneEnding(e: Env, limit: nat, chunks: seq<seq<byte>>, ending: Ending)
    ensures var s := RunStream(e, limit, chunks, ending);
            var k := s.run.st.sink;
            && (Succeeded(k) || Failed(k))
            && SentOuts(s.wire) == k.outs
            && s.wire != [] && s.wire[|s.wire| - 1] == Sent(k.outs[|k.outs| - 1])
  {
    hide Consume, Finalize;
    assert Consistent(FRESH);
    ConsumeAllConsistent(e, limit, FRESH, chunks);
    FinalizeConsistent(e, ConsumeAll(e, limit, FRESH, chunks), ending);
    FinalizeStops(e, ConsumeAll(e, limit, FRESH, chunks), ending);
  }

  lemma FinalizeStops(e: Env, s: Session, ending: Ending)
    ensures Finalize(e, s, ending).run.stopped
  {
  }

  // ----- a silent upstream is still heard -----

  lemma StepValidates(e: Env, t: Turn, ev: Event)
    ensures Step(e, t, ev).0.validatedFrames == t.validatedFrames + 1
  {
    hide ToolUseEvent, ReportedReason, StopWith, Emit, FailWith;
  }

  lemma {:induction false} RunValidates(e: Env, t: Turn, evs: seq<Event>)
    requires RunEvents(e, t, evs).1
    ensures RunEvents(e, t, evs).0.validatedFrames == t.validatedFrames + |evs|
    decreases |evs|
  {
    hide Step;
    if evs != [] {
      StepValidates(e, t, evs[0]);
      RunValidates(e, Step(e, t, evs[0]).0, evs[1..]);
    }
  }

  /** Every read that completes a frame puts something on the wire, if only a heartbeat. */
  lemma ReadsAreHeard(e: Env, limit: nat, s: Session, chunk: seq<byte>)
    requires Consistent(s) && !s.run.stopped && !Consume(e, limit, s, chunk).run.stopped
    requires DecodeAll(e.codec, s.run.rest + chunk).events != []
    ensures |Consume(e, limit, s, chunk).wire| > |s.wire|
  {
    hide DrainBytes, DecodeAll, RunEvents, SentOuts, Deltas;
    var t, buf := s.run.st, s.run.rest + chunk;
    var d := DecodeAll(e.codec, buf);
    DrainRunsEvents(e, t, buf);
    DrainKeepsOpen(e, t, buf);
    DrainGrows(e, t, buf);
    if RunEvents(e, t, d.events).1 {
      RunValidates(e, t, d.events);
    }
  }

  // ----- where the body was cut does not matter -----

  /** No chunk ever pushes the undecoded bytes over the bound. */
  predicate Fits(e: Env, limit: nat, r: Run<Turn, byte>, chunks: seq<seq<byte>>)
    decreases |chunks|
  {
    chunks == [] || r.stopped
    || (|r.rest| + |chunks[0]| <= limit && Fits(e, limit, DrainBytes(e, r.st, r.rest + chunks[0]), chunks[1..]))
  }

  function DeliverBytes(e: Env, r: Run<Turn, byte>, chunks: seq<seq<byte>>): Run<Turn, byte>
  {
    LookIsStable(e.codec.crc);
    Deliver(DecoderOf(e), r, chunks)
  }

  lemma {:induction false} ConsumeIsDeliver(e: Env, limit: nat, s: Session, chunks: seq<seq<byte>>)
    requires Fits(e, limit, s.run, chunks)
    ensures ConsumeAll(e, limit, s, chunks).run == DeliverBytes(e, s.run, chunks)
    decreases |chunks|
  {
    LookIsStable(e.codec.crc);
    hide Added, Beat, DecoderOf, FrameLook;
    if chunks != [] && !s.run.stopped {
      ConsumeIsDeliver(e, limit, Consume(e, limit, s, chunks[0]), chunks[1..]);
    }
  }

  /** The turn a body decodes to when it arrives in one piece. */
  function BatchTurn(e: Env, body: seq<byte>, ending: Ending): Turn
  {
    var r := DrainBytes(e, START, body);
    EndTurn(e, r.st, r.rest, ending)
  }

  /** Within the bound, every way of cutting a body leads to the turn of the uncut body. */
  lemma ChunkingDoesNotMatter(e: Env, limit: nat, chunks: seq<seq<byte>>, ending: Ending)
    requires Fits(e, limit, FRESH.run, chunks)
    ensures RunStream(e, limit, chunks, ending).run.st == BatchTurn(e, Concat(chunks), ending)
  {
    LookIsStable(e.codec.crc);
    ConsumeIsDeliver(e, limit, FRESH, chunks);
    DeliverIsDrain(DecoderOf(e), FRESH.run, chunks);
    assert [] + Concat(chunks) == Concat(chunks);
    DrainKeepsOpen(e, START, Concat(chunks));
  }

  lemma {:induction false} DrainShrinks(e: Env, t: Turn, buf: seq<byte>)
    ensures |DrainBytes(e, t, buf).rest| <= |buf|
    decreases |buf|
  {
    hide FrameStep, Prelude;
    LookIsStable(e.codec.crc);
    var look := FrameLook(e.codec.crc)(buf);
    if look.Frame? {
      DrainShrinks(e, FrameStep(e, t, buf[..look.size]).0, buf[look.size..]);
    }
  }

  /** A body no longer than the bound always fits. */
  lemma {:induction false} SmallBodiesFit(e: Env, limit: nat, r: Run<Turn, byte>, chunks: seq<seq<byte>>)
    requires |r.rest| + |Concat(chunks)| <= limit
    ensures Fits(e, limit, r, chunks)
    decreases |chunks|
  {
    hide DrainBytes;
    if chunks != [] && !r.stopped {
      DrainShrinks(e, r.st, r.rest + chunks[0]);
      SmallBodiesFit(e, limit, DrainBytes(e, r.st, r.rest + chunks[0]), chunks[1..]);
    }
  }
}
