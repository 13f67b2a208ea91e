/** What the gate looks at is what was sent, and the code it refuses with is the one the transformer failed with. */
module KiroGateLaws {
  import opened Bytes
  import opened EventStream
  import opened KiroStop
  import opened KiroTurn
  import opened KiroTurnProofs
  import opened KiroTools
  import opened KiroStream
  import opened KiroGate
  import opened KiroLaws

  // ----- what the gate observes -----

  function ContentIn(deltas: seq<Delta>): string
  {
    if deltas == [] then ""
    else
      var d := deltas[|deltas| - 1];
      ContentIn(deltas[..|deltas| - 1]) + if d.Content? then d.text else ""
  }

  function ReasoningIn(deltas: seq<Delta>): string
  {
    if deltas == [] then ""
    else
      var d := deltas[|deltas| - 1];
      ReasoningIn(deltas[..|deltas| - 1]) + if d.Reasoning? && d.value.JStr? then d.value.s else ""
  }

  lemma InSnoc(deltas: seq<Delta>, d: Delta)
    ensures ContentIn(deltas + [d]) == ContentIn(deltas) + if d.Content? then d.text else ""
    ensures ReasoningIn(deltas + [d]) == ReasoningIn(deltas) + if d.Reasoning? && d.value.JStr? then d.value.s else ""
  {
    assert (deltas + [d])[..|deltas|] == deltas;
  }

  predicate CallSent(outs: seq<Out>)
  {
    exists i :: 0 <= i < |outs| && outs[i].Chunk? && (outs[i].delta.CallHead? || outs[i].delta.CallArguments?)
  }

  /** What the gate has gathered once these outputs were sent. */
  predicate Gathers(o: Observed, outs: seq<Out>)
  {
    o.content == ContentIn(Told(outs)) && o.reasoning == ReasoningIn(Told(outs)) && (o.calls <==> CallSent(outs))
  }

  lemma GathersOneMore(o: Observed, outs: seq<Out>, out: Out)
    requires Gathers(o, outs)
    ensures Gathers(Observe(o, Sent(out)), outs + [out])
  {
    hide Told, CallSent, ContentIn, ReasoningIn;
    ToldSnoc(outs, out);
    CallSentSnoc(outs, out);
    assert Told(outs) + [] == Told(outs);
    if out.Chunk? {
      InSnoc(Told(outs), out.delta);
    }
  }

  /** The gate judges exactly the text and reasoning on the wire, and whether a call is among the outputs. */
  lemma {:induction false} ObservesWhatWasSent(wire: seq<Wire>)
    ensures Gathers(ObserveAll(wire), SentOuts(wire))
  {
    hide Gathers, Observe;
    if wire == [] {
      NothingTold();
    } else {
      var n := |wire| - 1;
      ObservesWhatWasSent(wire[..n]);
      var before := SentOuts(wire[..n]);
      if wire[n].Sent? {
        GathersOneMore(ObserveAll(wire[..n]), before, wire[n].out);
      } else {
        assert SentOuts(wire) == before;
        HeartbeatShowsNothing(ObserveAll(wire[..n]));
      }
    }
  }

  lemma HeartbeatShowsNothing(o: Observed)
    ensures Observe(o, Heartbeat) == o
  {
  }

  lemma NothingTold()
    ensures Gathers(Observed("", "", false, false), [])
  {
  }

  lemma CallSentSnoc(outs: seq<Out>, o: Out)
    ensures CallSent(outs + [o]) <==> CallSent(outs) || (o.Chunk? && (o.delta.CallHead? || o.delta.CallArguments?))
  {
    var all := outs + [o];
    assert forall i :: 0 <= i < |outs| ==> all[i] == outs[i];
    if CallSent(outs) {
      var i :| 0 <= i < |outs| && outs[i].Chunk? && (outs[i].delta.CallHead? || outs[i].delta.CallArguments?);
      assert all[i] == outs[i];
    }
    assert all[|outs|] == o;
  }

  // ----- error codes -----

  const NO_TERMINAL: set<string> :=
    {"corrupt_eventstream_frame", "incomplete_eventstream_frame", "upstream_read_error", "empty_response_eof"}

  /** Which code goes with which report. */
  predicate Labelled(code: string, d: Diagnostics)
  {
    || (d.provenance in NO_TERMINAL && d.disposition.TerminalIncomplete? && code == "kiro_missing_terminal")
    || (d.provenance == "upstream_eventstream_error" && d.disposition.TerminalIncomplete?
        && code == "kiro_upstream_eventstream_error")
    || (d.provenance == "integrity_buffer_exceeded" && d.disposition.TerminalIncomplete?
        && code == "kiro_integrity_buffer_exceeded")
    || (d.provenance == "invalid_tool_call" && d.disposition.RetryableFailure? && code == "invalid_kiro_tool_call")
    || (d.provenance in {"metadata_stop_reason", "message_stop_event"}
        && ((d.disposition.RetryableFailure? && code == "kiro_retryable_protocol_failure")
            || (d.disposition.TerminalRefusal? && code == "kiro_terminal_refusal")
            || (d.disposition.TerminalIncomplete? && code == "kiro_terminal_incomplete")
            || (d.disposition.UnknownFailure? && code == "kiro_unknown_stop_reason")))
  }

  /** While a turn is open, its stop reason came from a stop event or from metadata. */
  predicate Sourced(t: Turn)
  {
    t.stop.provenance.Some? ==> t.stop.provenance.value in {"metadata_stop_reason", "message_stop_event"}
  }

  /** An ended turn that failed carries a labelled error. */
  predicate LabelledEnd(k: Sink)
  {
    k.outs != [] && k.outs[|k.outs| - 1].Error? ==> Labelled(k.outs[|k.outs| - 1].code, k.outs[|k.outs| - 1].detail)
  }

  lemma PlainIsSourced(e: Env, t: Turn, ev: Event)
    requires Sourced(t)
    ensures Sourced(PlainEvent(e, t, ev))
  {
    hide ReportedReason, Merge, Emit;
  }

  lemma StepLabels(e: Env, t: Turn, ev: Event)
    requires Sourced(t)
    ensures var (t', go) := Step(e, t, ev); (go ==> Sourced(t')) && (!go ==> LabelledEnd(t'.sink))
  {
    hide PlainEvent, ToolUseEvent;
    PlainIsSourced(e, Validated(t), ev);
  }

  lemma {:induction false} RunLabels(e: Env, t: Turn, evs: seq<Event>)
    requires Sourced(t)
    ensures var (t', go) := RunEvents(e, t, evs); (go ==> Sourced(t')) && (!go ==> LabelledEnd(t'.sink))
    decreases |evs|
  {
    hide Step, Sourced, LabelledEnd;
    if evs != [] {
      StepLabels(e, t, evs[0]);
      if Step(e, t, evs[0]).1 {
        RunLabels(e, Step(e, t, evs[0]).0, evs[1..]);
      }
    }
  }

  lemma FailStopLabels(t: Turn, d: Disposition)
    requires Sourced(t) && Failing(d)
    ensures LabelledEnd(FailStop(t, d).sink)
  {
  }

  lemma CloseLabels(t: Turn)
    requires Sourced(t)
    ensures LabelledEnd(Close(t).sink)
  {
    hide StopDisposition, FailStop, Labelled;
    var d := StopDisposition(t.stop.reason, t.seen.toolCalls);
    if Failing(d) {
      FailStopLabels(t, d);
    }
    SimpleLabels(t.transport, t.stop.reason);
  }

  lemma SimpleLabels(transport: string, reason: Option<string>)
    ensures Labelled("invalid_kiro_tool_call", Diagnostics("invalid_tool_call", transport, reason, RetryableFailure))
    ensures forall p :: p in NO_TERMINAL ==>
              Labelled("kiro_missing_terminal", Diagnostics(p, transport, reason, TerminalIncomplete))
  {
  }

  lemma NoTerminals()
    ensures "corrupt_eventstream_frame" in NO_TERMINAL && "incomplete_eventstream_frame" in NO_TERMINAL
    ensures "upstream_read_error" in NO_TERMINAL && "empty_response_eof" in NO_TERMINAL
  {
  }

  lemma EndLabels(e: Env, t: Turn, rest: seq<byte>, ending: Ending)
    requires Sourced(t) && Open(t.sink)
    ensures LabelledEnd(EndTurn(e, t, rest, ending).sink)
  {
    hide StopDisposition, FailStop, Labelled, Close, EmitTools, AnyUsable, AnyUnusable, NO_TERMINAL;
    NoTerminals();
    SimpleLabels("upstream_error", t.stop.reason);
    SimpleLabels("incomplete_frame", t.stop.reason);
    var t1 := t.(transport := "clean_eof");
    var d := StopDisposition(t.stop.reason, t.seen.toolUse);
    if Failing(d) {
      FailStopLabels(t1, d);
    }
    CloseLabels(AfterTools(e, t1));
  }

  lemma StartIsSourced()
    ensures Sourced(START)
  {
  }

  lemma CorruptLabels(t: Turn)
    ensures LabelledEnd(Corrupt(t).sink)
  {
  }

  lemma {:induction false} DrainLabels(e: Env, t: Turn, buf: seq<byte>)
    requires Sourced(t)
    ensures var r := DrainBytes(e, t, buf); (!r.stopped ==> Sourced(r.st)) && (r.stopped ==> LabelledEnd(r.st.sink))
  {
    hide DecodeAll, RunEvents, DrainBytes, Corrupt, Sourced, LabelledEnd;
    DrainRunsEvents(e, t, buf);
    var d := DecodeAll(e.codec, buf);
    RunLabels(e, t, d.events);
    CorruptLabels(RunEvents(e, t, d.events).0);
  }

  lemma {:induction false} ConsumeLabels(e: Env, limit: nat, s: Session, chunks: seq<seq<byte>>)
    requires s.run.stopped ==> LabelledEnd(s.run.st.sink)
    requires !s.run.stopped ==> Sourced(s.run.st)
    ensures var r := ConsumeAll(e, limit, s, chunks).run;
            (r.stopped ==> LabelledEnd(r.st.sink)) && (!r.stopped ==> Sourced(r.st))
    decreases |chunks|
  {
    hide DrainBytes, Corrupt, Sourced, LabelledEnd, Added, Beat;
    if chunks != [] && !s.run.stopped {
      DrainLabels(e, s.run.st, s.run.rest + chunks[0]);
      CorruptLabels(s.run.st);
      ConsumeLabels(e, limit, Consume(e, limit, s, chunks[0]), chunks[1..]);
    }
  }

  /** Every run that ends in an error labels it. */
  lemma RunIsLabelled(e: Env, limit: nat, chunks: seq<seq<byte>>, ending: Ending)
    ensures LabelledEnd(RunStream(e, limit, chunks, ending).run.st.sink)
  {
    hide ConsumeAll, EndTurn, Sourced, LabelledEnd, Added, Open, Succeeded, Failed;
    StartIsSourced();
    ConsumeLabels(e, limit, FRESH, chunks);
    var s := ConsumeAll(e, limit, FRESH, chunks);
    assert Consistent(FRESH) by { FreshIsConsistent(); }
    ConsumeAllConsistent(e, limit, FRESH, chunks);
    if s.run.stopped {
      EndedIsFinished(s.run.st.sink);
      assert EndTurn(e, s.run.st, s.run.rest, ending) == s.run.st by { FinishedStays(e, s.run.st, s.run.rest, ending); }
    } else {
      EndLabels(e, s.run.st, s.run.rest, ending);
    }
  }

  lemma FreshIsConsistent()
    ensures Consistent(FRESH)
  {
  }

  lemma EndedIsFinished(k: Sink)
    requires Ended(k)
    ensures k.finished
  {
  }

  lemma FinishedStays(e: Env, t: Turn, rest: seq<byte>, ending: Ending)
    requires t.sink.finished
    ensures EndTurn(e, t, rest, ending) == t
  {
  }

  /** The code the gate answers a failed run with, by the code the run failed with. */
  function GateCode(code: string): string
  {
    if code == "kiro_retryable_protocol_failure" then "kiro_missing_terminal" else code
  }

  lemma JudgeLabelled(g: Gate, wire: seq<Wire>, code: string, d: Diagnostics)
    requires Labelled(code, d)
    ensures Respond(JudgeWire(g, wire, Some(d))) == KiroGate.Refused(GateCode(code))
  {
    hide ObserveAll, Rendered;
  }

  lemma JudgeSuspicious(g: Gate, wire: seq<Wire>, k: Sink)
    requires Succeeded(k) && SentOuts(wire) == k.outs && Suspicious(g, ObserveAll(wire))
    ensures var o := ObserveAll(wire);
            var dots := g.ellipsis(o.content) || (g.blank(o.content) && g.ellipsis(o.reasoning));
            Respond(JudgeWire(g, wire, LastReport(k)))
            == KiroGate.Refused(if dots then "kiro_ellipsis_final" else "kiro_incomplete_final")
  {
    hide ObserveAll, Rendered, SentOuts;
    ErrorSeen(wire);
    SucceededHasNoError(k);
  }

  /**
   * The gate's answer to every run. Too many bytes are refused as such; a failed run is refused with the code the
   * transformer failed with (a retryable failure as a missing terminal); a run that looks unfinished is refused as
   * such; every other run is released whole.
   */
  lemma GateAnswers(g: Gate, e: Env, limit: nat, chunks: seq<seq<byte>>, ending: Ending)
    ensures var s := RunStream(e, limit, chunks, ending);
            var k, o := s.run.st.sink, ObserveAll(s.wire);
            var answer := Gated(g, e, limit, chunks, ending);
            if !FitsUpTo(g, s.wire, |s.wire|) then answer == KiroGate.Refused("kiro_integrity_buffer_exceeded")
            else if Failed(k) then
              k.outs != [] && k.outs[|k.outs| - 1].Error?
                && answer == KiroGate.Refused(GateCode(k.outs[|k.outs| - 1].code))
            else if Suspicious(g, o) then
              answer == KiroGate.Refused(
                if g.ellipsis(o.content) || (g.blank(o.content) && g.ellipsis(o.reasoning)) then "kiro_ellipsis_final"
                else "kiro_incomplete_final")
            else answer == Released(Rendered(g, s.wire))
  {
    hide RunStream, FitsUpTo, Suspicious, Rendered, Succeeded, ObserveAll, JudgeWire, Labelled, SentOuts;
    var s := RunStream(e, limit, chunks, ending);
    var k := s.run.st.sink;
    OneEnding(e, limit, chunks, ending);
    RunIsLabelled(e, limit, chunks, ending);
    ReleasedIffSucceeded(g, e, limit, chunks, ending);
    if Failed(k) {
      JudgeLabelled(g, s.wire, k.outs[|k.outs| - 1].code, k.outs[|k.outs| - 1].detail);
    } else if Suspicious(g, ObserveAll(s.wire)) {
      JudgeSuspicious(g, s.wire, k);
    }
  }
}
