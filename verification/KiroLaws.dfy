/** The turn machine sends exactly what the events mean, however the body was cut. */
module KiroLaws {
  import opened Bytes
  import opened Json
  import opened EventStream
  import opened KiroStop
  import opened KiroTurn
  import opened KiroTurnProofs
  import opened KiroTools
  import opened KiroStream
  import opened KiroRuns
  import opened KiroReference

  lemma Kinds(ev: Event, kind: string)
    requires kind != ""
    ensures HeaderText(ev, ":event-type") == kind <==> Is(ev, kind)
    ensures UpstreamError(ev) <==> Fatal(ev)
  {
  }

  // ----- tool calls -----

  /** What the assembled buffer knows about an id. */
  lemma Assembling(tools: seq<Tool>, ps: seq<Piece>, id: string)
    requires Assembled(tools, ps)
    ensures |tools| == |FirstIds(ps)|
    ensures Find(tools, id).Some? <==> id in FirstIds(ps)
    ensures Find(tools, id).Some? ==>
              var k := Find(tools, id).value;
              && (AllText(Own(ps, id)) || AllObjects(Own(ps, id)))
              && tools[k] == Tool(id, NameOf(ps, id), InputOf(Own(ps, id)))
    ensures Find(tools, id).None? ==> Own(ps, id) == []
  {
    hide Own, NameOf, InputOf;
    var ids := FirstIds(ps);
    if id in ids {
      var i :| 0 <= i < |ids| && ids[i] == id;
      assert tools[i].id == id;
    } else {
      OwnOfStranger(ps, id);
    }
  }

  lemma FitsIffAppends(own: seq<Json>, input: Option<Json>)
    requires AllText(own) || AllObjects(own)
    ensures (if Append(InputOf(own), input).Some? then input else None) == Fitting(own, input)
    ensures Append(InputOf(own), input).Some? <==> input == None || Fitting(own, input).Some?
  {
    if own != [] {
      assert own[0] in own;
    }
  }

  /** A fragment files what the reference says, and is taken when the reference says so. */
  lemma FragmentFiles(e: Env, b: Buffered, v: Json, ps: seq<Piece>)
    requires Assembled(b.tools, ps)
    ensures PieceOf(e, b, v) == FiledBy(e, ps, v)
    ensures !AddFragment(e, b, v).1.Exceeded? ==> (AddFragment(e, b, v).1.Accepted? <==> Taken(e, ps, v))
  {
    hide Own, NameOf, InputOf, Append, Fitting, Assembled, FirstIds;
    var id, input := FragmentId(e, b, v), Get(Some(v), "input");
    Assembling(b.tools, ps, "");
    if id.Some? {
      Assembling(b.tools, ps, id.value);
      FitsIffAppends(Own(ps, id.value), input);
      assert InputOf([]) == NoInput by { NoInputs(); }
    }
  }

  lemma NoInputs()
    ensures InputOf([]) == NoInput
  {
  }

  lemma {:induction false} FragmentsFile(e: Env, b: Buffered, vs: seq<Json>, ps: seq<Piece>)
    requires Assembled(b.tools, ps) && !AddFragments(e, b, vs).1.Exceeded?
    ensures Pieces(e, b, vs, ps) == FiledByAll(e, ps, vs)
    decreases |vs|
  {
    hide AddFragment, PieceOf, FiledBy, Taken, Assembled;
    if vs != [] {
      var (b', o) := AddFragment(e, b, vs[0]);
      FragmentFiles(e, b, vs[0], ps);
      FragmentAssembles(e, b, vs[0], ps);
      if o.Accepted? {
        FragmentsFile(e, b', vs[1..], Filed(ps, PieceOf(e, b, vs[0])));
      }
    }
  }

  lemma StepFiles(e: Env, t: Turn, ev: Event, ps: seq<Piece>)
    requires Assembled(t.buffered.tools, ps) && Step(e, t, ev).1
    ensures (if FilesPieces(ev) then Pieces(e, t.buffered, FragmentValues(ev.payload), ps) else ps)
         == EventPieces(e, ps, ev)
  {
    hide AddFragments, Pieces, FiledByAll, Assembled, PlainEvent, Fail;
    Kinds(ev, "toolUseEvent");
    if FilesPieces(ev) {
      FragmentsFile(e, t.buffered, FragmentValues(ev.payload), ps);
    }
  }

  lemma {:induction false} RunFiles(e: Env, t: Turn, evs: seq<Event>, ps: seq<Piece>)
    requires Assembled(t.buffered.tools, ps) && RunEvents(e, t, evs).1
    ensures RunPieces(e, t, evs, ps) == AllPieces(e, ps, evs)
    decreases |evs|
  {
    hide Step, Assembled, FilesPieces, Pieces, EventPieces;
    if evs != [] {
      StepFiles(e, t, evs[0], ps);
      StepAssembles(e, t, evs[0], ps);
      RunFiles(e, Step(e, t, evs[0]).0, evs[1..], EventPieces(e, ps, evs[0]));
    }
  }

  lemma UsableIsDeliverable(e: Env, id: string, name: string, own: seq<Json>)
    requires AllText(own) || AllObjects(own)
    ensures var arg := Argument(e, own);
            && Usable(e, Tool(id, name, InputOf(own))) == (if Deliverable(e, name, arg) then arg else None)
            && (Usable(e, Tool(id, name, InputOf(own))).Some? <==> Deliverable(e, name, arg))
  {
    if own != [] {
      assert own[0] in own && own[|own| - 1] in own;
    }
  }

  lemma {:induction false} UsableAreOwed(e: Env, ps: seq<Piece>, ids: seq<string>, tools: seq<Tool>, from: nat)
    requires |tools| == |ids|
    requires forall i :: 0 <= i < |ids| ==>
               && (AllText(Own(ps, ids[i])) || AllObjects(Own(ps, ids[i])))
               && tools[i] == Tool(ids[i], NameOf(ps, ids[i]), InputOf(Own(ps, ids[i])))
    ensures Numbered(e, from, UsableCalls(e, tools)) == Owed(e, ps, ids, from)
    decreases |ids|
  {
    hide Own, NameOf, InputOf, Argument, Deliverable, Usable;
    if ids != [] {
      UsableIsDeliverable(e, ids[0], NameOf(ps, ids[0]), Own(ps, ids[0]));
      var us := UsableCalls(e, tools[1..]);
      match Usable(e, tools[0])
      case None => UsableAreOwed(e, ps, ids[1..], tools[1..], from);
      case Some(input) =>
        UsableAreOwed(e, ps, ids[1..], tools[1..], from + 1);
        assert Numbered(e, from, [(tools[0], input)] + us)
            == [Call(from, tools[0].id, e.rename(tools[0].name), e.show(input))] + Numbered(e, from + 1, us);
    }
  }

  lemma AssembledAreOwed(e: Env, ps: seq<Piece>)
    requires Coherent(ps)
    ensures Numbered(e, 0, UsableCalls(e, Assemble(ps))) == Owed(e, ps, FirstIds(ps), 0)
  {
    hide Own, NameOf, InputOf, UsableCalls, Numbered, Owed;
    var ids := FirstIds(ps);
    forall i | 0 <= i < |ids| ensures AllText(Own(ps, ids[i])) || AllObjects(Own(ps, ids[i])) {
      assert ids[i] in ids;
    }
    UsableAreOwed(e, ps, ids, Assemble(ps), 0);
  }

  /**
   * However the body was cut, the calls a client puts together from what a successful run sent are those owed for
   * the pieces the body's events file: one per id whose joined arguments make an object, in order of first
   * appearance, numbered from 0.
   */
  lemma CallsOnTheWire(e: Env, limit: nat, chunks: seq<seq<byte>>, ending: Ending)
    requires Succeeded(RunStream(e, limit, chunks, ending).run.st.sink)
    ensures var ps := AllPieces(e, [], DecodeAll(e.codec, Concat(chunks)).events);
            Received(SentOuts(RunStream(e, limit, chunks, ending).wire)) == Owed(e, ps, FirstIds(ps), 0)
  {
    hide RunStream, DecodeAll, RunEvents, FinishTurn, Succeeded, Failed, BatchTurn, Fits, RunPieces, Received, SentOuts,
      AllPieces, Owed, FirstIds, Assemble, Coherent, UsableCalls, Numbered;
    var events := DecodeAll(e.codec, Concat(chunks)).events;
    SucceededIsNotFailed(RunStream(e, limit, chunks, ending).run.st.sink);
    OneEnding(e, limit, chunks, ending);
    FitsOrFails(e, limit, chunks, ending);
    SucceededAtEnd(e, Concat(chunks), ending);
    DeliveredCalls(e, events);
    StartIsAssembled();
    RunFiles(e, START, events, []);
    AssembledAreOwed(e, RunPieces(e, START, events, []));
  }

  lemma StartIsAssembled()
    ensures Assembled(START.buffered.tools, [])
  {
    assert Assemble([]) == [];
  }

  // ----- text and reasoning -----

  /** The text and reasoning deltas among the outputs. */
  function Told(outs: seq<Out>): seq<Delta>
  {
    if outs == [] then []
    else
      var o := outs[|outs| - 1];
      Told(outs[..|outs| - 1]) + if o.Chunk? && (o.delta.Content? || o.delta.Reasoning?) then [o.delta] else []
  }

  lemma ToldSnoc(outs: seq<Out>, o: Out)
    ensures Told(outs + [o])
         == Told(outs) + if o.Chunk? && (o.delta.Content? || o.delta.Reasoning?) then [o.delta] else []
  {
    assert (outs + [o])[..|outs|] == outs;
  }

  /** The machine has told what the narrator has told, and remembers what the narrator remembers. */
  predicate Narrates(t: Turn, n: Narrator)
  {
    && Told(t.sink.outs) == n.deltas
    && t.seen.inThinking == n.inside && t.seen.reasoning == n.reasoned
    && (n.spoke <==> t.seen.text || t.seen.reasoning || t.seen.code)
  }

  lemma TextTells(e: Env, t: Turn, ev: Event, n: Narrator, text: string)
    requires Narrates(t, n) && Is(ev, "assistantResponseEvent") && Get(ev.payload, "content") == Some(JStr(text))
    ensures Narrates(TextEvent(e, t, text), Tell(e, n, ev))
  {
    hide Told, Is;
    var (inside, visible) := e.strip(n.inside, text);
    var said := Chunk(t.sink.chunkIndex == 0, Content(visible));
    ToldSnoc(t.sink.outs, said);
    assert Tell(e, n, ev) == Narrator(inside, n.reasoned, n.spoke || visible != "",
                                      if visible == "" && n.reasoned then n.deltas else n.deltas + [Content(visible)]);
    if visible != "" || !t.seen.reasoning {
      assert TextEvent(e, t, text).sink.outs == t.sink.outs + [said];
    }
  }

  lemma ReasoningTells(e: Env, t: Turn, ev: Event, n: Narrator)
    requires Narrates(t, n) && Is(ev, "reasoningContentEvent") && !Is(ev, "assistantResponseEvent")
    ensures Narrates(ReasoningEvent(t, ev.payload), Tell(e, n, ev))
  {
    hide Told;
    var text := ReasoningText(ev.payload);
    if Truthy(text) {
      ToldSnoc(t.sink.outs, Chunk(t.sink.chunkIndex == 0, Reasoning(text.value)));
    }
  }

  lemma CodeTells(e: Env, t: Turn, ev: Event, n: Narrator, text: string)
    requires Narrates(t, n) && Is(ev, "codeEvent") && Get(ev.payload, "content") == Some(JStr(text))
    ensures Narrates(t.(sink := Emit(t.sink, Content(text)), seen := t.seen.(code := true)), Tell(e, n, ev))
  {
    hide Told;
    OneKind(ev, "codeEvent");
    ToldSnoc(t.sink.outs, Chunk(t.sink.chunkIndex == 0, Content(text)));
  }

  lemma OneKind(ev: Event, kind: string)
    requires Is(ev, kind)
    ensures forall other :: other != kind ==> !Is(ev, other)
  {
  }

  lemma StopTells(e: Env, t: Turn, ev: Event, n: Narrator)
    requires Narrates(t, n)
    ensures Narrates(StopEvent(e, t, ev), n)
  {
    hide Told, ReportedReason, StopWith;
  }

  lemma SilentEvent(e: Env, n: Narrator, ev: Event)
    requires !Is(ev, "reasoningContentEvent")
    requires Is(ev, "assistantResponseEvent") || Is(ev, "codeEvent") ==> !IsText(Get(ev.payload, "content"))
    ensures Tell(e, n, ev) == n
  {
  }

  lemma PlainTells(e: Env, t: Turn, ev: Event, n: Narrator)
    requires Narrates(t, n)
    ensures Narrates(PlainEvent(e, t, ev), Tell(e, n, ev))
  {
    hide Narrates, Tell, TextEvent, ReasoningEvent, StopEvent, HeaderText, Is, Emit;
    var content := Get(ev.payload, "content");
    Kinds(ev, "assistantResponseEvent");
    Kinds(ev, "reasoningContentEvent");
    Kinds(ev, "codeEvent");
    if Is(ev, "assistantResponseEvent") && IsText(content) {
      TextTells(e, t, ev, n, content.value.s);
    } else if Is(ev, "reasoningContentEvent") {
      OneKind(ev, "reasoningContentEvent");
      ReasoningTells(e, t, ev, n);
    } else if Is(ev, "codeEvent") && IsText(content) {
      CodeTells(e, t, ev, n, content.value.s);
    } else {
      SilentEvent(e, n, ev);
      StopTells(e, t, ev, n);
    }
  }

  /** A tool event leaves the narration alone. */
  lemma ToolTells(e: Env, t: Turn, payload: Option<Json>, n: Narrator)
    requires Narrates(t, n)
    ensures var (t', go) := ToolStep(e, t, payload);
            (go ==> Narrates(t', n)) && (!go ==> Told(t'.sink.outs) == n.deltas)
  {
    hide Told, ToolUseEvent;
    var t' := ToolStep(e, t, payload).0;
    if |t'.sink.outs| > |t.sink.outs| {
      ToldSnoc(t.sink.outs, t'.sink.outs[|t.sink.outs|]);
    }
  }

  /** A frame tells what its event means; the frame that stops the run tells nothing. */
  lemma StepTells(e: Env, t: Turn, ev: Event, n: Narrator)
    requires Narrates(t, n)
    ensures var (t', go) := Step(e, t, ev);
            && (go ==> Narrates(t', Tell(e, n, ev)))
            && (!go ==> Told(t'.sink.outs) == n.deltas && (Fatal(ev) || Is(ev, "toolUseEvent")))
  {
    hide Told, PlainEvent, ToolStep, Tell, HeaderText, Is, UpstreamError, Fatal;
    var v := Validated(t);
    assert Narrates(v, n);
    Kinds(ev, "toolUseEvent");
    if UpstreamError(ev) {
      var f := Step(e, t, ev).0;
      ToldSnoc(t.sink.outs, f.sink.outs[|t.sink.outs|]);
    } else if Is(ev, "toolUseEvent") {
      OneKind(ev, "toolUseEvent");
      SilentEvent(e, n, ev);
      ToolTells(e, v, ev.payload, n);
    } else {
      PlainTells(e, v, ev, n);
    }
  }

  lemma {:induction false} RunTells(e: Env, t: Turn, evs: seq<Event>, n: Narrator) returns (k: nat)
    requires Narrates(t, n)
    ensures k <= |evs|
    ensures var (t', go) := RunEvents(e, t, evs);
            && Told(t'.sink.outs) == TellAll(e, n, evs[..k]).deltas
            && (go ==> k == |evs| && Narrates(t', TellAll(e, n, evs)))
            && (!go ==> k < |evs| && (Fatal(evs[k]) || Is(evs[k], "toolUseEvent")))
    decreases |evs|
  {
    hide Step, Narrates, Tell, Told;
    k := 0;
    if evs == [] {
      assert Told(t.sink.outs) == n.deltas by { NarratesTold(t, n); }
    } else {
      StepTells(e, t, evs[0], n);
      var (t', go) := Step(e, t, evs[0]);
      if go {
        var m := RunTells(e, t', evs[1..], Tell(e, n, evs[0]));
        k := m + 1;
        assert evs[..k][1..] == evs[1..][..m] && evs[..k][0] == evs[0];
        assert evs[..|evs|] == evs;
      }
    }
  }

  lemma NarratesTold(t: Turn, n: Narrator)
    requires Narrates(t, n)
    ensures Told(t.sink.outs) == n.deltas
  {
  }

  lemma {:induction false} ToolsTellNothing(e: Env, k: Sink, tools: seq<Tool>)
    ensures Told(EmitTools(e, k, tools).outs) == Told(k.outs)
    decreases |tools|
  {
    hide Usable, Told;
    if tools != [] {
      match Usable(e, tools[0])
      case None => ToolsTellNothing(e, k, tools[1..]);
      case Some(input) =>
        var n := k.toolCounter;
        var k1 := Emit(k, CallHead(n, tools[0].id, e.rename(tools[0].name)));
        ToldSnoc(k.outs, k1.outs[|k.outs|]);
        ToldSnoc(k1.outs, Chunk(k1.chunkIndex == 0, CallArguments(n, e.show(input))));
        ToolsTellNothing(e, EmitCall(e, k, tools[0], input), tools[1..]);
    }
  }

  lemma CloseTellsNothing(t: Turn)
    ensures Told(Close(t).sink.outs) == Told(t.sink.outs)
  {
    hide Told, StopDisposition;
    var d := StopDisposition(t.stop.reason, t.seen.toolCalls);
    var outs := t.sink.outs;
    forall o: Out | o.Error? || o.Finish? ensures Told(outs + [o]) == Told(outs) { ToldSnoc(outs, o); }
    ToldSnoc(outs + [Finish(FinishReason(t, d))], Done);
    assert outs + [Finish(FinishReason(t, d)), Done] == outs + [Finish(FinishReason(t, d))] + [Done];
  }

  lemma EndTellsNothing(e: Env, t: Turn, rest: seq<byte>, ending: Ending)
    ensures Told(EndTurn(e, t, rest, ending).sink.outs) == Told(t.sink.outs)
  {
    hide Told, Close, EmitTools, StopDisposition, AnyUsable, AnyUnusable, FailureCode, ProvenanceOr;
    ToolsTellNothing(e, t.sink, t.buffered.tools);
    CloseTellsNothing(AfterTools(e, t.(transport := "clean_eof")));
    forall o: Out | o.Error? ensures Told(t.sink.outs + [o]) == Told(t.sink.outs) { ToldSnoc(t.sink.outs, o); }
  }

  lemma StartNarrates()
    ensures Narrates(START, SILENT)
  {
  }

  lemma CorruptTellsNothing(t: Turn)
    ensures Told(Corrupt(t).sink.outs) == Told(t.sink.outs)
  {
    ToldSnoc(t.sink.outs, Corrupt(t).sink.outs[|t.sink.outs|]);
  }

  lemma BatchTells(e: Env, body: seq<byte>, ending: Ending) returns (k: nat)
    ensures var events := DecodeAll(e.codec, body).events;
            && k <= |events|
            && Told(BatchTurn(e, body, ending).sink.outs) == TellAll(e, SILENT, events[..k]).deltas
            && (k < |events| ==> Fatal(events[k]) || Is(events[k], "toolUseEvent"))
            && (RunEvents(e, START, events).1 ==> k == |events|)
  {
    hide DecodeAll, RunEvents, EndTurn, Corrupt, Told, TellAll, DrainBytes;
    var d := DecodeAll(e.codec, body);
    DrainRunsEvents(e, START, body);
    StartNarrates();
    k := RunTells(e, START, d.events, SILENT);
    var t := RunEvents(e, START, d.events).0;
    CorruptTellsNothing(t);
    var r := DrainBytes(e, START, body);
    EndTellsNothing(e, r.st, r.rest, ending);
  }

  /**
   * However the body was cut, the text and reasoning deltas on the wire are, in order, those its events mean: all of
   * them if the run succeeded, and otherwise those before the event that stopped it.
   */
  lemma NarrationOnTheWire(e: Env, limit: nat, chunks: seq<seq<byte>>, ending: Ending) returns (k: nat)
    requires Fits(e, limit, FRESH.run, chunks)
    ensures var events := DecodeAll(e.codec, Concat(chunks)).events;
            var s := RunStream(e, limit, chunks, ending);
            && k <= |events|
            && Told(SentOuts(s.wire)) == TellAll(e, SILENT, events[..k]).deltas
            && (k < |events| ==> Fatal(events[k]) || Is(events[k], "toolUseEvent"))
            && (Succeeded(s.run.st.sink) ==> k == |events|)
  {
    hide RunStream, DecodeAll, Succeeded, Failed, BatchTurn, Fits, SentOuts, Told, TellAll, RunEvents, FinishTurn;
    OneEnding(e, limit, chunks, ending);
    ChunkingDoesNotMatter(e, limit, chunks, ending);
    k := BatchTells(e, Concat(chunks), ending);
    if Succeeded(RunStream(e, limit, chunks, ending).run.st.sink) {
      SucceededAtEnd(e, Concat(chunks), ending);
    }
  }
}
