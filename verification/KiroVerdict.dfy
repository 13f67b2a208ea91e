/** The verdict of a Kiro run, told from its events: when it succeeds and with which finish reason. */
module KiroVerdict {
  import opened Bytes
  import opened Json
  import opened EventStream
  import opened KiroStop
  import opened KiroTurn
  import opened KiroTurnProofs
  import opened KiroTools
  import opened KiroStream
  import opened KiroRuns
  import opened KiroReference
  import opened KiroLaws

  // ----- what the machine remembers of the events -----

  lemma {:induction false} TakenIffAccepted(e: Env, b: Buffered, vs: seq<Json>, ps: seq<Piece>)
    requires Assembled(b.tools, ps) && !AddFragments(e, b, vs).1.Exceeded?
    ensures AddFragments(e, b, vs).1.Accepted? <==> AllTaken(e, ps, vs)
    decreases |vs|
  {
    hide AddFragment, PieceOf, FiledBy, Assembled;
    if vs != [] {
      var (b', o) := AddFragment(e, b, vs[0]);
      FragmentFiles(e, b, vs[0], ps);
      FragmentAssembles(e, b, vs[0], ps);
      if o.Accepted? {
        TakenIffAccepted(e, b', vs[1..], ps + [FiledBy(e, ps, vs[0]).value]);
      }
    }
  }

  lemma NamedIsNormalized(e: Env, v: Option<Json>)
    ensures ReasonIn(e, v) == ReasonNamed(e, ReasonField(v))
  {
    var field := ReasonField(v);
    assert Coalesce(Get(v, "stopReason"), Get(v, "stop_reason")) == field;
  }

  lemma ReasonIsReported(e: Env, sawTool: bool, ev: Event)
    ensures ReportedReason(e, sawTool, ev) == ReasonFrom(e, sawTool, ev)
  {
    hide ReasonIn, ReasonNamed, ReasonField, HeaderText, Is, Get;
    Kinds(ev, "messageStopEvent");
    Kinds(ev, "metadataEvent");
    Kinds(ev, "MetadataEvent");
    NamedIsNormalized(e, ev.payload);
    NamedIsNormalized(e, OrElse(OrElse(Get(ev.payload, "metadataEvent"), Get(ev.payload, "metadata")), ev.payload));
  }

  lemma ToolRemembers(e: Env, t: Turn, ev: Event, ps: seq<Piece>)
    requires Assembled(t.buffered.tools, ps) && ToolStep(e, t, ev.payload).1 && Is(ev, "toolUseEvent")
    ensures ToolStep(e, t, ev.payload).0.seen
         == t.seen.(toolUse := true, toolError := t.seen.toolError || Refused(e, ps, ev))
  {
    hide AddFragments, Assembled, AllTaken, Is;
    var vs := FragmentValues(ev.payload);
    if vs != [] && Truthy(Some(vs[0])) {
      TakenIffAccepted(e, t.buffered, vs, ps);
    }
  }

  /** Nothing that decides about tools or the ending was noted. */
  predicate Unmoved(s: Seen, s': Seen)
  {
    s'.toolUse == s.toolUse && s'.toolError == s.toolError && s'.toolCalls == s.toolCalls
      && s'.explicitStop == s.explicitStop
  }

  lemma TellingLeavesUnmoved(e: Env, t: Turn, text: string, payload: Option<Json>)
    ensures Unmoved(t.seen, TextEvent(e, t, text).seen) && Unmoved(t.seen, ReasoningEvent(t, payload).seen)
  {
    hide Emit, Get;
  }

  lemma StopRemembers(e: Env, t: Turn, ev: Event)
    ensures var r := ReportedReason(e, t.seen.toolUse, ev);
            Unmoved(t.seen.(explicitStop := t.seen.explicitStop || r.Some?), StopEvent(e, t, ev).seen)
  {
    hide ReportedReason, StopWith, HeaderText;
  }

  /** What a frame that is no tool event adds to the memory. */
  lemma PlainRemembers(e: Env, t: Turn, ev: Event)
    ensures Unmoved(t.seen.(explicitStop := t.seen.explicitStop || ReasonFrom(e, t.seen.toolUse, ev).Some?),
                    PlainEvent(e, t, ev).seen)
  {
    hide ReportedReason, ReasonFrom, HeaderText, Is, Emit, Get, TextEvent, ReasoningEvent, StopEvent;
    ReasonIsReported(e, t.seen.toolUse, ev);
    NoReasonInOthers(e, t.seen.toolUse, ev);
    Kinds(ev, "assistantResponseEvent");
    Kinds(ev, "reasoningContentEvent");
    Kinds(ev, "codeEvent");
    var content := Get(ev.payload, "content");
    TellingLeavesUnmoved(e, t, if IsText(content) then content.value.s else "", ev.payload);
    StopRemembers(e, t, ev);
  }

  /** What one frame adds to the machine's memory. */
  lemma StepRemembers(e: Env, t: Turn, ev: Event, ps: seq<Piece>)
    requires Assembled(t.buffered.tools, ps) && Step(e, t, ev).1
    ensures var s, s' := t.seen, Step(e, t, ev).0.seen;
            && !Fatal(ev)
            && EventReason(e, t, ev) == ReasonFrom(e, s.toolUse, ev)
            && s'.toolUse == (s.toolUse || Is(ev, "toolUseEvent"))
            && s'.explicitStop == (s.explicitStop || ReasonFrom(e, s.toolUse, ev).Some?)
            && s'.toolError == (s.toolError || Refused(e, ps, ev))
            && s'.toolCalls == s.toolCalls
  {
    hide ToolStep, PlainEvent, ReportedReason, ReasonFrom, Assembled, HeaderText, Is, Fail;
    Kinds(ev, "toolUseEvent");
    ReasonIsReported(e, t.seen.toolUse, ev);
    var v := Validated(t);
    if Is(ev, "toolUseEvent") {
      NoReasonInOthers(e, t.seen.toolUse, ev);
      if !UpstreamError(ev) {
        ToolRemembers(e, v, ev, ps);
      }
    } else {
      PlainRemembers(e, v, ev);
    }
  }

  lemma NoReasonInOthers(e: Env, sawTool: bool, ev: Event)
    ensures (Is(ev, "toolUseEvent") || Is(ev, "assistantResponseEvent")
             || Is(ev, "reasoningContentEvent") || Is(ev, "codeEvent"))
        ==> ReasonFrom(e, sawTool, ev).None?
  {
  }

  predicate AnyTool(evs: seq<Event>)
  {
    exists i :: 0 <= i < |evs| && Is(evs[i], "toolUseEvent")
  }

  lemma AnyToolFirst(evs: seq<Event>)
    requires evs != []
    ensures AnyTool(evs) <==> Is(evs[0], "toolUseEvent") || AnyTool(evs[1..])
  {
    hide Is;
    assert forall i :: 0 < i < |evs| ==> evs[i] == evs[1..][i - 1];
    if AnyTool(evs[1..]) {
      var i :| 0 <= i < |evs[1..]| && Is(evs[1..][i], "toolUseEvent");
      assert Is(evs[i + 1], "toolUseEvent");
    }
  }

  /** A run that read all its events remembers what they mean. */
  lemma {:induction false} RunRemembers(e: Env, t: Turn, evs: seq<Event>, ps: seq<Piece>, rs: seq<string>)
    requires Assembled(t.buffered.tools, ps) && RunEvents(e, t, evs).1
    ensures var s, s' := t.seen, RunEvents(e, t, evs).0.seen;
            && (forall i :: 0 <= i < |evs| ==> !Fatal(evs[i]))
            && RunReasons(e, t, evs, rs) == rs + ReasonsFrom(e, s.toolUse, evs)
            && s'.toolUse == (s.toolUse || AnyTool(evs))
            && s'.explicitStop == (s.explicitStop || ReasonsFrom(e, s.toolUse, evs) != [])
            && s'.toolError == (s.toolError || AnyRefused(e, ps, evs))
            && s'.toolCalls == s.toolCalls
    decreases |evs|
  {
    hide Step, Assembled, ReasonFrom, Refused, EventPieces, EventReason, Is, Fatal, FilesPieces, AnyTool;
    if evs == [] {
      NoToolInNothing();
      assert rs + [] == rs;
    } else {
      var t' := Step(e, t, evs[0]).0;
      StepRemembers(e, t, evs[0], ps);
      StepFiles(e, t, evs[0], ps);
      StepAssembles(e, t, evs[0], ps);
      AnyToolFirst(evs);
      var r := ReasonFrom(e, t.seen.toolUse, evs[0]);
      RunRemembers(e, t', evs[1..], EventPieces(e, ps, evs[0]), Noted(rs, r));
      var later := ReasonsFrom(e, t'.seen.toolUse, evs[1..]);
      assert Noted(rs, r) + later == rs + ((if r.Some? then [r.value] else []) + later);
      forall i | 0 <= i < |evs| ensures !Fatal(evs[i]) {
        assert i > 0 ==> evs[i] == evs[1..][i - 1];
      }
    }
  }

  lemma NoToolInNothing()
    ensures !AnyTool([])
  {
  }

  // ----- the verdict -----

  /** What decides about a turn: was it cut off, did it say anything, and did it say why it ended. */
  datatype Summary = Summary(
    reason: Option<string>, reasons: bool, told: bool, spoke: bool, calls: bool, sawTool: bool, toolTrouble: bool)
  {
    predicate CutOff() { reason == Some("max_tokens") || reason == Some("model_context_window_exceeded") }

    /** Neither before nor after the tool calls went out does the reason spoil the turn, and it is not empty. */
    predicate Good()
    {
      && (Bad(reason, sawTool) ==> CutOff() && told)
      && (spoke || calls || (reasons && reason != Some("tool_use") && !toolTrouble))
      && (Bad(reason, calls) ==> CutOff() && (told || calls))
    }

    function Reason(): string
    {
      if CutOff() then "length" else if calls then "tool_calls" else "stop"
    }
  }

  function SummaryOf(t: Turn, calls: bool, unusable: bool): Summary
  {
    Summary(t.stop.reason, t.seen.explicitStop, t.sink.chunkIndex > 0, t.seen.text || t.seen.reasoning || t.seen.code,
            calls, t.seen.toolUse, t.seen.toolError || unusable)
  }

  lemma {:induction false} ChunksCounted(e: Env, k: Sink, tools: seq<Tool>)
    ensures EmitTools(e, k, tools).chunkIndex > 0 <==> k.chunkIndex > 0 || AnyUsable(e, tools)
    decreases |tools|
  {
    hide Usable;
    if tools != [] {
      assert forall i :: 0 < i < |tools| ==> tools[i] == tools[1..][i - 1];
      assert AnyUsable(e, tools) <==> Usable(e, tools[0]).Some? || AnyUsable(e, tools[1..]) by {
        if AnyUsable(e, tools[1..]) {
          var i :| 0 <= i < |tools[1..]| && Usable(e, tools[1..][i]).Some?;
          assert Usable(e, tools[i + 1]).Some?;
        }
      }
      match Usable(e, tools[0])
      case None => ChunksCounted(e, k, tools[1..]);
      case Some(input) => ChunksCounted(e, EmitCall(e, k, tools[0], input), tools[1..]);
    }
  }

  lemma CloseVerdict(t: Turn)
    requires Open(t.sink) && (t.seen.toolCalls ==> t.sink.chunkIndex > 0)
    ensures var s := SummaryOf(t, t.seen.toolCalls, false);
            && (Succeeded(Close(t).sink) <==>
                  && (s.spoke || s.calls || (s.reasons && s.reason != Some("tool_use") && !s.toolTrouble))
                  && (Bad(s.reason, s.calls) ==> s.CutOff() && s.told))
            && (Succeeded(Close(t).sink) ==> Finished(Close(t).sink) == Some(s.Reason()))
  {
    hide StopDisposition, Bad, Fail, Failed, Succeeded, Open, Finished;
    var d := StopDisposition(t.stop.reason, t.seen.toolCalls);
    FailingIffBad(t.stop.reason, t.seen.toolCalls);
    BadReasons(t.stop.reason, t.seen.toolCalls);
    FailTurnEnds(t, "invalid_tool_call", "invalid_kiro_tool_call", t.transport, RetryableFailure);
    FailTurnEnds(t, "empty_response_eof", "kiro_missing_terminal", t.transport, TerminalIncomplete);
    FailedIsNotSucceeded(InvalidTool(t).sink);
    FailedIsNotSucceeded(Fail(t, "empty_response_eof", "kiro_missing_terminal", t.transport, TerminalIncomplete).sink);
    if Failing(d) {
      FailTurnEnds(t, ProvenanceOr(t, "metadata_stop_reason"), FailureCode(d), t.transport, d);
      FailedIsNotSucceeded(FailStop(t, d).sink);
    }
    if !Failing(d) || TruncatedAfterOutput(t, d) {
      SucceedEnds(t, d);
      SucceedReason(t, d);
    }
  }

  lemma BadReasons(reason: Option<string>, h: bool)
    ensures Bad(reason, h) && reason == Some("max_tokens") ==> h
    ensures reason == Some("model_context_window_exceeded") ==> Bad(reason, h)
    ensures reason == Some("max_tokens") && h ==> Bad(reason, h)
  {
  }

  lemma FailedIsNotSucceeded(k: Sink)
    ensures Failed(k) ==> !Succeeded(k)
  {
  }

  lemma SucceedReason(t: Turn, d: Disposition)
    ensures Finished(Succeed(t, d).sink) == Some(FinishReason(t, d))
  {
  }

  lemma FinishVerdict(e: Env, t: Turn)
    requires Open(t.sink) && !t.seen.toolCalls
    ensures var s := SummaryOf(t, AnyUsable(e, t.buffered.tools), AnyUnusable(e, t.buffered.tools));
            var k := FinishTurn(e, t, []).sink;
            && (Succeeded(k) <==> s.Good())
            && (Succeeded(k) ==> Finished(k) == Some(s.Reason()))
  {
    hide StopDisposition, Bad, Fail, Failed, Succeeded, Finished, Close, EmitTools, AnyUsable, AnyUnusable, Deltas;
    var t1 := t.(transport := "clean_eof");
    var d := StopDisposition(t.stop.reason, t.seen.toolUse);
    FailingIffBad(t.stop.reason, t.seen.toolUse);
    BadReasons(t.stop.reason, t.seen.toolUse);
    if Failing(d) && !TruncatedAfterOutput(t1, d) {
      FailTurnEnds(t1, ProvenanceOr(t, "metadata_stop_reason"), FailureCode(d), "clean_eof", d);
      FailedIsNotSucceeded(FailStop(t1, d).sink);
    } else {
      EmitToolsKeepsOpen(e, t.sink, t.buffered.tools);
      ChunksCounted(e, t.sink, t.buffered.tools);
      CloseVerdict(AfterTools(e, t1));
    }
  }

  // ----- from the events alone -----

  /** The summary of a response, read off its events. */
  function Summarize(e: Env, evs: seq<Event>): Summary
  {
    var n, ps, rs := TellAll(e, SILENT, evs), AllPieces(e, [], evs), ReasonsFrom(e, false, evs);
    Summary(FoldReasons(None, rs), rs != [], n.deltas != [], n.spoke, Owed(e, ps, FirstIds(ps), 0) != [],
            AnyTool(evs), AnyRefused(e, [], evs) || AnyUndeliverable(e, ps))
  }

  predicate AnyUndeliverable(e: Env, ps: seq<Piece>)
  {
    exists i :: 0 <= i < |FirstIds(ps)| &&
      !Deliverable(e, NameOf(ps, FirstIds(ps)[i]), Argument(e, Own(ps, FirstIds(ps)[i])))
  }

  lemma {:induction false} ToldCount(outs: seq<Out>)
    requires NoCalls(outs)
    ensures |Told(outs)| == |outs|
  {
    if outs != [] {
      assert outs[|outs| - 1] in outs && forall o :: o in outs[..|outs| - 1] ==> o in outs;
      ToldCount(outs[..|outs| - 1]);
    }
  }

  lemma {:induction false} AnyUsableIff(e: Env, tools: seq<Tool>)
    ensures AnyUsable(e, tools) <==> UsableCalls(e, tools) != []
    decreases |tools|
  {
    hide Usable;
    if tools != [] {
      AnyUsableIff(e, tools[1..]);
      assert forall i :: 0 < i < |tools| ==> tools[i] == tools[1..][i - 1];
      if AnyUsable(e, tools[1..]) {
        var i :| 0 <= i < |tools[1..]| && Usable(e, tools[1..][i]).Some?;
        assert Usable(e, tools[i + 1]).Some?;
      }
    }
  }

  lemma UsableFromPieces(e: Env, ps: seq<Piece>)
    requires Coherent(ps)
    ensures AnyUsable(e, Assemble(ps)) <==> Owed(e, ps, FirstIds(ps), 0) != []
    ensures AnyUnusable(e, Assemble(ps)) <==> AnyUndeliverable(e, ps)
  {
    hide Own, NameOf, InputOf, Usable, Argument, Deliverable, Owed, UsableCalls, FirstIds;
    AnyUsableIff(e, Assemble(ps));
    AssembledAreOwed(e, ps);
    var ids, tools := FirstIds(ps), Assemble(ps);
    forall i | 0 <= i < |ids|
      ensures Usable(e, tools[i]).None? <==> !Deliverable(e, NameOf(ps, ids[i]), Argument(e, Own(ps, ids[i])))
    {
      assert ids[i] in ids;
      UsableIsDeliverable(e, ids[i], NameOf(ps, ids[i]), Own(ps, ids[i]));
    }
  }

  /** The machine's memory of a run that read all its events is their summary. */
  lemma MachineSummarizes(e: Env, evs: seq<Event>)
    requires RunEvents(e, START, evs).1
    ensures var t := RunEvents(e, START, evs).0;
            && Open(t.sink) && !t.seen.toolCalls
            && SummaryOf(t, AnyUsable(e, t.buffered.tools), AnyUnusable(e, t.buffered.tools)) == Summarize(e, evs)
  {
    hide RunEvents, AnyUsable, AnyUnusable, Owed, AllPieces, TellAll, ReasonsFrom, FoldReasons, AnyTool, AnyRefused,
      AnyUndeliverable, RunPieces, RunReasons, Told, FirstIds, Assemble, Coherent, NoCalls;
    var t := RunEvents(e, START, evs).0;
    StartIsOpen();
    RunStaysOpen(e, START, evs);
    StartIsAssembled();
    RunAssembles(e, START, evs, []);
    RunFiles(e, START, evs, []);
    RunRemembers(e, START, evs, [], []);
    assert [] + ReasonsFrom(e, false, evs) == ReasonsFrom(e, false, evs);
    assert FoldReasons(None, []) == None by { NoReasons(); }
    RunFoldsReasons(e, START, evs, []);
    StartNarrates();
    var k := RunTells(e, START, evs, SILENT);
    StartMakesNoCalls();
    RunMakesNoCalls(e, START, evs);
    ToldCount(t.sink.outs);
    UsableFromPieces(e, RunPieces(e, START, evs, []));
  }

  lemma NoReasons()
    ensures FoldReasons(None, []) == None
  {
  }

  lemma StartMakesNoCalls()
    ensures NoCalls(START.sink.outs)
  {
  }

  /**
   * The verdict on a body, told from its bytes and events: it succeeds exactly when the stream ended properly with
   * nothing corrupt or left over, every event was read, and the summary is good; the finish reason is the summary's.
   */
  lemma VerdictFromEvents(e: Env, body: seq<byte>, ending: Ending)
    ensures var d := DecodeAll(e.codec, body);
            var k := BatchTurn(e, body, ending).sink;
            var s := Summarize(e, d.events);
            && (Succeeded(k) <==>
                  && ending.EndOfStream? && !d.corrupt && d.rest == []
                  && RunEvents(e, START, d.events).1 && s.Good())
            && (Succeeded(k) ==> Finished(k) == Some(s.Reason()))
  {
    hide DecodeAll, RunEvents, Summarize, Succeeded, Failed, Open, Finished, FinishTurn, Corrupt, Fail, DrainBytes,
      SummaryOf, Summary.Good, Summary.Reason, AnyUsable, AnyUnusable;
    var d := DecodeAll(e.codec, body);
    if Succeeded(BatchTurn(e, body, ending).sink) {
      SucceededAtEnd(e, body, ending);
    }
    if RunEvents(e, START, d.events).1 {
      MachineSummarizes(e, d.events);
      FinishVerdict(e, RunEvents(e, START, d.events).0);
    }
    EndsWell(e, body, ending);
  }

  /** Only a proper end without leftovers reaches finish() with its tools. */
  lemma EndsWell(e: Env, body: seq<byte>, ending: Ending)
    ensures var d := DecodeAll(e.codec, body);
            var well := ending.EndOfStream? && !d.corrupt && d.rest == [] && RunEvents(e, START, d.events).1;
            if well then BatchTurn(e, body, ending) == FinishTurn(e, RunEvents(e, START, d.events).0, [])
            else !Succeeded(BatchTurn(e, body, ending).sink)
  {
    hide DecodeAll, RunEvents, FinishTurn, Succeeded, Failed, Open, Corrupt, Fail, DrainBytes;
    var d := DecodeAll(e.codec, body);
    var (t, go) := RunEvents(e, START, d.events);
    DrainRunsEvents(e, START, body);
    StartIsOpen();
    RunStaysOpen(e, START, d.events);
    FailedIsNotSucceeded(BatchTurn(e, body, ending).sink);
    if !go {
      FailedIsFinished(t.sink);
    } else if d.corrupt {
      CorruptFails(t);
      FailedIsFinished(Corrupt(t).sink);
    } else {
      OpenIsUnfinished(t.sink);
      FailTurnEnds(t, "upstream_read_error", "kiro_missing_terminal", "upstream_error", TerminalIncomplete);
      LeftoverFails(e, t, d.rest);
    }
  }

  /** However the body was cut: the verdict is that of the body, and exceeding the buffer bound fails it. */
  lemma VerdictOnTheWire(e: Env, limit: nat, chunks: seq<seq<byte>>, ending: Ending)
    ensures var k := RunStream(e, limit, chunks, ending).run.st.sink;
            var d := DecodeAll(e.codec, Concat(chunks));
            var s := Summarize(e, d.events);
            && (Succeeded(k) <==>
                  && Fits(e, limit, FRESH.run, chunks)
                  && ending.EndOfStream? && !d.corrupt && d.rest == []
                  && RunEvents(e, START, d.events).1 && s.Good())
            && (Succeeded(k) ==> Finished(k) == Some(s.Reason()))
  {
    hide RunStream, DecodeAll, RunEvents, Summarize, Succeeded, Failed, Finished, BatchTurn, Fits;
    FitsOrFails(e, limit, chunks, ending);
    FailedIsNotSucceeded(RunStream(e, limit, chunks, ending).run.st.sink);
    VerdictFromEvents(e, Concat(chunks), ending);
  }
}
