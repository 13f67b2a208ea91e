/** What every run of the Kiro turn machine keeps. */
module KiroTurnProofs {
  import opened Bytes
  import opened KiroStop
  import opened EventStream
  import opened KiroTurn

  // ----- one ending per run -----

  /** Only delta chunks, the first one (and no other) introducing the assistant role. */
  predicate Deltas(outs: seq<Out>)
  {
    forall i :: 0 <= i < |outs| ==> outs[i].Chunk? && outs[i].withRole == (i == 0)
  }

  /** Still reading: nothing terminal written, nothing reported. */
  predicate Open(k: Sink)
  {
    !k.finished && k.reports == [] && k.chunkIndex == |k.outs| && Deltas(k.outs)
  }

  /** Ended once, successfully: deltas, the finish chunk, the end marker, one report that does not fail. */
  predicate Succeeded(k: Sink)
  {
    var n := |k.outs|;
    && k.finished && n >= 2 && k.outs[n - 2].Finish? && k.outs[n - 1].Done? && Deltas(k.outs[..n - 2])
    && |k.reports| == 1 && !Failing(k.reports[0].disposition)
  }

  /** Ended once, in error: deltas, one error event, one failing report that the error carries. */
  predicate Failed(k: Sink)
  {
    var n := |k.outs|;
    && k.finished && n >= 1 && k.outs[n - 1].Error? && Deltas(k.outs[..n - 1])
    && k.reports == [k.outs[n - 1].detail] && Failing(k.reports[0].disposition)
  }

  lemma FailEnds(k: Sink, code: string, detail: Diagnostics)
    requires Open(k) && Failing(detail.disposition)
    ensures Failed(FailWith(k, code, detail))
  {
    assert FailWith(k, code, detail).outs[..|k.outs|] == k.outs;
  }

  lemma FailTurnEnds(t: Turn, provenance: string, code: string, transport: string, d: Disposition)
    requires Open(t.sink) && Failing(d)
    ensures Failed(Fail(t, provenance, code, transport, d).sink)
  {
    FailEnds(t.sink, code, Diagnostics(provenance, transport, t.stop.reason, d));
  }

  lemma CorruptFails(t: Turn)
    requires Open(t.sink)
    ensures Failed(Corrupt(t).sink)
  {
    FailTurnEnds(t, "corrupt_eventstream_frame", "kiro_missing_terminal", "corrupt_frame", TerminalIncomplete);
  }

  lemma StartIsOpen()
    ensures Open(START.sink)
  {
  }

  lemma OpenIsUnfinished(k: Sink)
    requires Open(k)
    ensures !k.finished
  {
  }

  lemma FailedIsFinished(k: Sink)
    requires Failed(k)
    ensures k.finished
  {
  }

  lemma PlainEventKeepsOpen(e: Env, t: Turn, ev: Event)
    requires Open(t.sink)
    ensures Open(PlainEvent(e, t, ev).sink)
  {
    hide ReportedReason, Merge;
  }

  /** A frame either leaves the turn open and reading goes on, or ends it in error and reading stops. */
  lemma StepKeepsOpen(e: Env, t: Turn, ev: Event)
    requires Open(t.sink)
    ensures var (t', go) := Step(e, t, ev); if go then Open(t'.sink) else Failed(t'.sink)
  {
    hide PlainEvent, ToolUseEvent, FailWith, Open, Failed;
    PlainEventKeepsOpen(e, Validated(t), ev);
    FailEnds(t.sink, "kiro_upstream_eventstream_error",
             Diagnostics("upstream_eventstream_error", "upstream_error", t.stop.reason, TerminalIncomplete));
    FailEnds(t.sink, "kiro_integrity_buffer_exceeded",
             Diagnostics("integrity_buffer_exceeded", "valid_complete_frame", t.stop.reason, TerminalIncomplete));
  }

  lemma {:induction false} EmitToolsKeepsOpen(e: Env, k: Sink, tools: seq<Tool>)
    requires Open(k)
    ensures Open(EmitTools(e, k, tools))
    decreases |tools|
  {
    hide Usable;
    if tools != [] {
      match Usable(e, tools[0])
      case None => EmitToolsKeepsOpen(e, k, tools[1..]);
      case Some(input) => EmitToolsKeepsOpen(e, EmitCall(e, k, tools[0], input), tools[1..]);
    }
  }

  lemma SucceedEnds(t: Turn, d: Disposition)
    requires Open(t.sink) && (TruncatedAfterOutput(t, d) || !Failing(d))
    ensures Succeeded(Succeed(t, d).sink)
  {
    assert Succeed(t, d).sink.outs[..|t.sink.outs|] == t.sink.outs;
  }

  lemma CloseEnds(t: Turn)
    requires Open(t.sink)
    ensures Succeeded(Close(t).sink) || Failed(Close(t).sink)
  {
    hide Fail, Succeed, StopDisposition, Open, Failed, Succeeded;
    var d := StopDisposition(t.stop.reason, t.seen.toolCalls);
    FailTurnEnds(t, "invalid_tool_call", "invalid_kiro_tool_call", t.transport, RetryableFailure);
    FailTurnEnds(t, "empty_response_eof", "kiro_missing_terminal", t.transport, TerminalIncomplete);
    if Failing(d) {
      FailTurnEnds(t, ProvenanceOr(t, "metadata_stop_reason"), FailureCode(d), t.transport, d);
    }
    if !Failing(d) || TruncatedAfterOutput(t, d) {
      SucceedEnds(t, d);
    }
  }

  /** However the stream ends, the turn ends exactly once. */
  lemma FinishEnds(e: Env, t: Turn, tail: seq<byte>)
    requires Open(t.sink)
    ensures var f := FinishTurn(e, t, tail).sink; Succeeded(f) || Failed(f)
  {
    hide Fail, StopDisposition, EmitTools, Close, Failed, Succeeded;
    var t1 := t.(transport := "clean_eof");
    var d := StopDisposition(t.stop.reason, t.seen.toolUse);
    FailTurnEnds(t, "incomplete_eventstream_frame", "kiro_missing_terminal", "incomplete_frame", TerminalIncomplete);
    if Failing(d) {
      FailTurnEnds(t1, ProvenanceOr(t, "metadata_stop_reason"), FailureCode(d), "clean_eof", d);
    }
    EmitToolsKeepsOpen(e, t.sink, t.buffered.tools);
    CloseEnds(AfterTools(e, t1));
  }
}
