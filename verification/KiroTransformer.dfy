/** The Kiro transformer as the source runs it: one mutable state object, loops over frames, fragments and calls. */
module KiroTransformer {
  import opened Bytes
  import opened Json
  import opened Framing
  import opened EventStream
  import opened KiroStop
  import opened KiroTurn
  import opened KiroTurnProofs
  import opened KiroTools
  import opened KiroStream

  /** The fragment loop of a toolUseEvent. */
  method AddEach(e: Env, b: Buffered, vs: seq<Json>) returns (b': Buffered, o: Outcome)
    ensures (b', o) == AddFragments(e, b, vs)
    ensures Counted(e, b) && b.bytes <= e.maxToolBytes ==>
            Counted(e, b') && (o.Exceeded? <==> b'.bytes > e.maxToolBytes)
  {
    hide Counted, AddFragment;
    b', o := b, Accepted;
    var i := 0;
    while i < |vs| && o.Accepted?
      invariant 0 <= i <= |vs|
      invariant o.Accepted? ==> AddFragments(e, b', vs[i..]) == AddFragments(e, b, vs)
      invariant !o.Accepted? ==> (b', o) == AddFragments(e, b, vs)
      invariant Counted(e, b) && b.bytes <= e.maxToolBytes ==>
                Counted(e, b') && (o.Exceeded? <==> b'.bytes > e.maxToolBytes)
    {
      if Counted(e, b) && b.bytes <= e.maxToolBytes {
        FragmentCounted(e, b', vs[i]);
      }
      assert vs[i..][1..] == vs[i + 1..];
      var r := AddFragment(e, b', vs[i]);
      b', o := r.0, r.1;
      i := i + 1;
    }
  }

  /** emitTools: each buffered call is validated on its own. */
  method EmitEach(e: Env, k: Sink, tools: seq<Tool>) returns (k': Sink, emitted: bool, dropped: bool)
    ensures k' == EmitTools(e, k, tools) && emitted == AnyUsable(e, tools) && dropped == AnyUnusable(e, tools)
    ensures Below(Received(k.outs), k.toolCounter)
        ==> Received(k'.outs) == Received(k.outs) + Numbered(e, k.toolCounter, UsableCalls(e, tools))
  {
    hide Usable, EmitCall, Received, Numbered, UsableCalls;
    k', emitted, dropped := k, false, false;
    for i := 0 to |tools|
      invariant EmitTools(e, k', tools[i..]) == EmitTools(e, k, tools)
      invariant emitted == exists j :: 0 <= j < i && Usable(e, tools[j]).Some?
      invariant dropped == exists j :: 0 <= j < i && Usable(e, tools[j]).None?
    {
      assert tools[i..][1..] == tools[i + 1..];
      match Usable(e, tools[i])
      case None => dropped := true;
      case Some(input) =>
        k' := EmitCall(e, k', tools[i], input);
        emitted := true;
    }
    if Below(Received(k.outs), k.toolCounter) {
      EmitToolsDelivers(e, k, tools);
    }
  }

  /** processEvent on a validated frame, with the catch around it. */
  method ProcessEvent(e: Env, before: Turn, ev: Event) returns (t: Turn, go: bool)
    ensures (t, go) == Step(e, before, ev)
  {
    hide PlainEvent, AddFragments, Fail;
    t, go := Validated(before), true;
    if UpstreamError(ev) {
      t := Fail(t, "upstream_eventstream_error", "kiro_upstream_eventstream_error", "upstream_error",
        TerminalIncomplete);
      go := false;
    } else if HeaderText(ev, ":event-type") == "toolUseEvent" {
      var vs := FragmentValues(ev.payload);
      var b, o := t.buffered, Rejected;
      if vs != [] && Truthy(Some(vs[0])) {
        b, o := AddEach(e, t.buffered, vs);
      }
      t := t.(buffered := b, seen := t.seen.(toolUse := true));
      match o {
        case Accepted =>
        case Rejected =>
          t := t.(seen := t.seen.(toolError := true));
        case Exceeded =>
          t := Fail(t, "integrity_buffer_exceeded", "kiro_integrity_buffer_exceeded", t.transport, TerminalIncomplete);
          go := false;
      }
    } else {
      t := PlainEvent(e, t, ev);
    }
  }

  /** finish() after the read loop, or the catch of a read error. */
  method EndRun(e: Env, before: Turn, rest: seq<byte>, ending: Ending) returns (t: Turn)
    ensures t == EndTurn(e, before, rest, ending)
  {
    hide Close, Fail, StopDisposition, EmitTools, AnyUsable, AnyUnusable;
    t := before;
    if t.sink.finished {
      return;
    }
    if ending.ReadError? {
      t := Fail(t, "upstream_read_error", "kiro_missing_terminal", "upstream_error", TerminalIncomplete);
      return;
    }
    if rest != [] {
      t := Fail(t, "incomplete_eventstream_frame", "kiro_missing_terminal", "incomplete_frame", TerminalIncomplete);
      return;
    }
    t := t.(transport := "clean_eof");
    var declared := StopDisposition(t.stop.reason, t.seen.toolUse);
    if Failing(declared) && !TruncatedAfterOutput(t, declared) {
      t := FailStop(t, declared);
      return;
    }
    var sink, emitted, dropped := EmitEach(e, t.sink, t.buffered.tools);
    t := Close(t.(buffered := Buffered([], 0), sink := sink,
                  seen := t.seen.(toolCalls := t.seen.toolCalls || emitted, toolError := t.seen.toolError || dropped)));
  }

  lemma AddedComposes(a: Turn, b: Turn, c: Turn)
    requires Grows(a, b) && Grows(b, c)
    ensures Grows(a, c) && Added(a, b) + Added(b, c) == Added(a, c)
  {
  }

  datatype Progress = Went | Waits | Stopped

  /** One unfolding of the frame loop. */
  lemma DrainOnce(e: Env, t: Turn, buf: seq<byte>)
    ensures match Prelude(e.codec.crc, buf)
            case More => DrainBytes(e, t, buf) == Run(t, buf, false)
            case Bad => DrainBytes(e, t, buf) == Run(Corrupt(t), buf, true)
            case Frame(n) =>
              && n <= |buf|
              && match ParseFrame(e.codec, buf[..n])
                 case Err(_) => DrainBytes(e, t, buf) == Run(Corrupt(t), buf[n..], true)
                 case Ok(ev) =>
                   var (next, go) := Step(e, t, ev);
                   DrainBytes(e, t, buf) == if go then DrainBytes(e, next, buf[n..]) else Run(next, buf[n..], true)
  {
    hide Prelude, ParseFrame, Step, Corrupt;
    LookIsStable(e.codec.crc);
    assert FrameLook(e.codec.crc)(buf) == Prelude(e.codec.crc, buf);
  }

  class Transformer {
    const e: Env
    const limit: nat
    var buffer: seq<byte>
    var turn: Turn
    var wire: seq<Wire>

    ghost function View(): Session
      reads this
    {
      Session(Run(turn, buffer, turn.sink.finished), wire)
    }

    constructor (e: Env, limit: nat)
      ensures this.e == e && this.limit == limit && View() == FRESH
    {
      this.e, this.limit, buffer, turn, wire := e, limit, [], START, [];
    }

    /** Move to the next state and send what it added. */
    method Advance(next: Turn)
      modifies this`turn, this`wire
      ensures turn == next && wire == old(wire) + Added(old(turn), next)
    {
      wire, turn := wire + Added(turn, next), next;
    }

    /** One turn of the frame loop. */
    method TakeFrame() returns (p: Progress)
      requires Open(turn.sink)
      modifies this`buffer, this`turn, this`wire
      ensures wire == old(wire) + Added(old(turn), turn) && Grows(old(turn), turn)
      ensures p.Went? ==> Open(turn.sink) && |buffer| < |old(buffer)|
                          && DrainBytes(e, turn, buffer) == DrainBytes(e, old(turn), old(buffer))
      ensures p.Waits? ==> Open(turn.sink) && DrainBytes(e, old(turn), old(buffer)) == Run(turn, buffer, false)
      ensures p.Stopped? ==> Failed(turn.sink) && DrainBytes(e, old(turn), old(buffer)) == Run(turn, buffer, true)
    {
      hide Prelude, ParseFrame, Step, Open, Failed, Added, Fail, Grows, DrainBytes;
      LookIsStable(e.codec.crc);
      DrainOnce(e, turn, buffer);
      CorruptFails(turn);
      CorruptGrows(turn);
      var look := Prelude(e.codec.crc, buffer);
      if look.More? {
        AddedSelf(wire, turn);
        return Waits;
      }
      if look.Bad? {
        Advance(Corrupt(turn));
        return Stopped;
      }
      assert 0 < look.size <= |buffer| by { assert FrameLook(e.codec.crc)(buffer) == look; }
      var frame := buffer[..look.size];
      buffer := buffer[look.size..];
      var event := ParseEventFrame(e.codec, frame);
      if event.Err? {
        Advance(Corrupt(turn));
        return Stopped;
      }
      StepKeepsOpen(e, turn, event.value);
      StepGrows(e, turn, event.value);
      var next, go := ProcessEvent(e, turn, event.value);
      Advance(next);
      return if go then Went else Stopped;
    }

    method ProcessBytes(chunk: seq<byte>) returns (ok: bool)
      requires Open(turn.sink)
      modifies this`buffer, this`turn, this`wire
      ensures View() == Processed(e, limit, old(View()), chunk) && ok == !View().run.stopped
      ensures if ok then Open(turn.sink) else Failed(turn.sink)
    {
      hide Open, Failed, Added, Fail, Grows, DrainBytes;
      if |buffer| + |chunk| > limit {
        CorruptFails(turn);
        FailedIsFinished(Corrupt(turn).sink);
        Advance(Corrupt(turn));
        return false;
      }
      buffer := buffer + chunk;
      AddedSelf(wire, turn);
      var p := Went;
      while p.Went?
        invariant Grows(old(turn), turn) && wire == old(wire) + Added(old(turn), turn)
        invariant p.Stopped? ==> Failed(turn.sink)
        invariant !p.Stopped? ==> Open(turn.sink)
        invariant DrainBytes(e, old(turn), old(buffer) + chunk)
               == if p.Went? then DrainBytes(e, turn, buffer) else Run(turn, buffer, p.Stopped?)
        decreases p.Went?, |buffer|
      {
        ghost var mid := turn;
        ghost var sent := wire;
        p := TakeFrame();
        AddedComposes(old(turn), mid, turn);
        assert sent + Added(mid, turn) == old(wire) + (Added(old(turn), mid) + Added(mid, turn));
      }
      ok := !p.Stopped?;
      if ok { OpenIsUnfinished(turn.sink); } else { FailedIsFinished(turn.sink); }
    }

    /** The read loop and everything after it. */
    method Transform(chunks: seq<seq<byte>>, ending: Ending)
      requires View() == FRESH
      modifies this`buffer, this`turn, this`wire
      ensures turn == RunStream(e, limit, chunks, ending).run.st && wire == RunStream(e, limit, chunks, ending).wire
      ensures Succeeded(turn.sink) || Failed(turn.sink)
    {
      hide Processed, Open, Failed, Succeeded, EndTurn, Added, Beat;
      var i := 0;
      assert Open(turn.sink) by { StartIsOpen(); }
      while i < |chunks| && !turn.sink.finished
        invariant 0 <= i <= |chunks|
        invariant ConsumeAll(e, limit, View(), chunks[i..]) == ConsumeAll(e, limit, FRESH, chunks)
        invariant !turn.sink.finished ==> Open(turn.sink)
      {
        assert chunks[i..][1..] == chunks[i + 1..];
        ghost var s := View();
        var before := turn;
        var ok := ProcessBytes(chunks[i]);
        assert chunks[i..][0] == chunks[i];
        if ok {
          wire := wire + Beat(before, turn);
        }
        assert View() == Consume(e, limit, s, chunks[i]);
        i := i + 1;
      }
      assert ConsumeAll(e, limit, View(), chunks[i..]) == View();
      var last := EndRun(e, turn, buffer, ending);
      Advance(last);
      OneEnding(e, limit, chunks, ending);
    }
  }

  lemma AddedSelf(w: seq<Wire>, t: Turn)
    ensures Grows(t, t) && w + Added(t, t) == w
  {
  }
}
