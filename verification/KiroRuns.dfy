/** Stop reasons over whole runs: what the reasons an upstream reported imply for the ending. */
module KiroRuns {
  import opened Bytes
  import opened EventStream
  import opened KiroStop
  import opened KiroTurn
  import opened KiroTurnProofs
  import opened KiroTools
  import opened KiroStream

  function EventReason(e: Env, t: Turn, ev: Event): Option<string>
  {
    if UpstreamError(ev) then None else ReportedReason(e, t.seen.toolUse, ev)
  }

  function Noted(rs: seq<string>, r: Option<string>): seq<string>
  {
    if r.Some? then rs + [r.value] else rs
  }

  /** All stop reasons reported by a run, in order. */
  function RunReasons(e: Env, t: Turn, evs: seq<Event>, rs: seq<string>): seq<string>
    decreases |evs|
  {
    if evs == [] then rs
    else
      var (t', go) := Step(e, t, evs[0]);
      var now := Noted(rs, EventReason(e, t, evs[0]));
      if go then RunReasons(e, t', evs[1..], now) else now
  }

  lemma StepReason(e: Env, t: Turn, ev: Event)
    ensures Step(e, t, ev).0.stop.reason == Merge(t.stop.reason, EventReason(e, t, ev))
  {
    hide ToolUseEvent, Merge, Emit, FailWith, ReasonIn;
    assert forall c :: Merge(c, None) == c by { MergeNone(); }
  }

  lemma MergeNone()
    ensures forall c :: Merge(c, None) == c
  {
  }

  lemma {:induction false} RunFoldsReasons(e: Env, t: Turn, evs: seq<Event>, rs: seq<string>)
    requires t.stop.reason == FoldReasons(None, rs)
    ensures RunEvents(e, t, evs).0.stop.reason == FoldReasons(None, RunReasons(e, t, evs, rs))
    decreases |evs|
  {
    hide Step, EventReason, FoldReasons, Merge;
    if evs != [] {
      var r := EventReason(e, t, evs[0]);
      StepReason(e, t, evs[0]);
      NotedFolds(rs, r);
      if Step(e, t, evs[0]).1 {
        RunFoldsReasons(e, Step(e, t, evs[0]).0, evs[1..], Noted(rs, r));
      }
    }
  }

  lemma NotedFolds(rs: seq<string>, r: Option<string>)
    ensures FoldReasons(None, Noted(rs, r)) == Merge(FoldReasons(None, rs), r)
  {
    if r.Some? {
      FoldAppend(None, rs, [r.value]);
    }
  }

  lemma {:induction false} RunStaysOpen(e: Env, t: Turn, evs: seq<Event>)
    requires Open(t.sink)
    ensures var (t', go) := RunEvents(e, t, evs); if go then Open(t'.sink) else Failed(t'.sink)
    decreases |evs|
  {
    hide Step, Open, Failed;
    if evs != [] {
      StepKeepsOpen(e, t, evs[0]);
      if Step(e, t, evs[0]).1 {
        RunStaysOpen(e, Step(e, t, evs[0]).0, evs[1..]);
      }
    }
  }

  /** The reasons a body reports. */
  function Reported(e: Env, body: seq<byte>): seq<string>
  {
    RunReasons(e, START, DecodeAll(e.codec, body).events, [])
  }

  lemma RefusedFinishFails(e: Env, t: Turn, rest: seq<byte>, ending: Ending)
    requires Open(t.sink) && forall b :: StopDisposition(t.stop.reason, b).TerminalRefusal?
    ensures Failed(EndTurn(e, t, rest, ending).sink)
  {
    hide Fail, Failed, Succeeded, AfterTools, ProvenanceOr, FailureCode;
    assert StopDisposition(t.stop.reason, t.seen.toolUse).TerminalRefusal?;
    FailTurnEnds(t, "upstream_read_error", "kiro_missing_terminal", "upstream_error", TerminalIncomplete);
    FailTurnEnds(t, "incomplete_eventstream_frame", "kiro_missing_terminal", "incomplete_frame", TerminalIncomplete);
    var t1 := t.(transport := "clean_eof");
    FailTurnEnds(t1, ProvenanceOr(t1, "metadata_stop_reason"), FailureCode(TerminalRefusal), t1.transport,
      TerminalRefusal);
  }

  /** The finish reason a client sees, if the run succeeded. */
  function Finished(k: Sink): Option<string>
  {
    if |k.outs| >= 2 && k.outs[|k.outs| - 1].Done? && k.outs[|k.outs| - 2].Finish?
    then Some(k.outs[|k.outs| - 2].finishReason) else None
  }

  /** A batch run either failed while reading, or reached its end open with the folded reason. */
  lemma BatchOutcome(e: Env, body: seq<byte>, ending: Ending) returns (t: Turn, rest: seq<byte>, failed: bool)
    ensures t.stop.reason == FoldReasons(None, Reported(e, body))
    ensures failed ==> Failed(BatchTurn(e, body, ending).sink)
    ensures !failed ==> Open(t.sink) && BatchTurn(e, body, ending) == EndTurn(e, t, rest, ending)
  {
    hide RunEvents, DecodeAll, RunReasons, StopDisposition, DrainBytes, Open, Failed, FinishTurn, Fail;
    var d := DecodeAll(e.codec, body);
    var (u, go) := RunEvents(e, START, d.events);
    t, rest, failed := u, d.rest, !go || d.corrupt;
    DrainRunsEvents(e, START, body);
    assert Open(START.sink) by { StartIsOpen(); }
    RunStaysOpen(e, START, d.events);
    RunFoldsReasons(e, START, d.events, []);
    if go && d.corrupt {
      CorruptFails(t);
      FailedIsFinished(Corrupt(t).sink);
    } else if !go {
      FailedIsFinished(t.sink);
    }
  }

  lemma FailedHasNoReason(k: Sink)
    requires Failed(k)
    ensures Finished(k).None?
  {
  }

  /** A body that reports a refusal anywhere ends in failure, whatever else it carries. */
  lemma RefusalEndsInFailure(e: Env, body: seq<byte>, ending: Ending, k: nat)
    requires k < |Reported(e, body)| && StopDisposition(Some(Reported(e, body)[k]), false).TerminalRefusal?
    ensures Failed(BatchTurn(e, body, ending).sink)
  {
    hide Reported, StopDisposition, BatchTurn, Failed;
    var t, rest, failed := BatchOutcome(e, body, ending);
    forall b ensures StopDisposition(t.stop.reason, b).TerminalRefusal? { RefusalWins(Reported(e, body), k, b); }
    if !failed {
      RefusedFinishFails(e, t, rest, ending);
    }
  }

  lemma CloseReason(t: Turn)
    requires Open(t.sink) && Finished(Close(t).sink).Some?
    ensures var d := StopDisposition(t.stop.reason, t.seen.toolCalls);
            Finished(Close(t).sink) == Some(FinishReason(t, d)) && (!Failing(d) || TruncatedAfterOutput(t, d))
  {
    hide StopDisposition, FinishReason, TruncatedAfterOutput, ProvenanceOr, FailureCode;
  }

  lemma FinishReasonOf(e: Env, t: Turn, rest: seq<byte>, ending: Ending)
    requires Open(t.sink) && Finished(EndTurn(e, t, rest, ending).sink).Some?
    ensures var f := Finished(EndTurn(e, t, rest, ending).sink).value;
            f == "stop" || f == "tool_calls" ==>
              exists b :: StopDisposition(t.stop.reason, b).Complete? || StopDisposition(t.stop.reason, b).ToolUse?
  {
    hide Close, EmitTools, AnyUsable, AnyUnusable, ProvenanceOr, FailureCode;
    var t1 := AfterTools(e, t.(transport := "clean_eof"));
    EmitToolsKeepsOpen(e, t.sink, t.buffered.tools);
    if ending.EndOfStream? && rest == [] && Finished(Close(t1).sink).Some? {
      CloseReason(t1);
      var d := StopDisposition(t.stop.reason, t1.seen.toolCalls);
      assert d.Complete? || d.ToolUse? || FinishReason(t1, d) == "length";
    }
  }

  /** A run that finishes with "stop" or "tool_calls" saw only end_turn and tool_use. */
  lemma CleanFinishSawOnlyCleanReasons(e: Env, body: seq<byte>, ending: Ending)
    requires Finished(BatchTurn(e, body, ending).sink) in {Some("stop"), Some("tool_calls")}
    ensures forall r :: r in Reported(e, body) ==> r == "end_turn" || r == "tool_use"
  {
    hide Reported, StopDisposition, BatchTurn, Failed, EndTurn;
    var t, rest, failed := BatchOutcome(e, body, ending);
    if failed {
      FailedHasNoReason(BatchTurn(e, body, ending).sink);
      assert false;
    } else {
      FinishReasonOf(e, t, rest, ending);
      var b :| StopDisposition(t.stop.reason, b).Complete? || StopDisposition(t.stop.reason, b).ToolUse?;
      BenignMeansOnlyBenign(Reported(e, body), b);
    }
  }

  // ----- the same for every chunking, bound included -----

  lemma {:induction false} OverflowFails(e: Env, limit: nat, s: Session, chunks: seq<seq<byte>>)
    requires !s.run.stopped && Open(s.run.st.sink) && !Fits(e, limit, s.run, chunks)
    ensures var r := ConsumeAll(e, limit, s, chunks).run; r.stopped && Failed(r.st.sink)
    decreases |chunks|
  {
    hide DrainBytes, Open, Failed, Added, Beat, Corrupt;
    var t, chunk := s.run.st, chunks[0];
    if |s.run.rest| + |chunk| > limit {
      CorruptFails(t);
    } else {
      DrainKeepsOpen(e, t, s.run.rest + chunk);
      OverflowFails(e, limit, Consume(e, limit, s, chunk), chunks[1..]);
    }
  }

  /** A run either stayed within the buffer bound and is the run of the uncut body, or failed. */
  lemma FitsOrFails(e: Env, limit: nat, chunks: seq<seq<byte>>, ending: Ending)
    ensures var t := RunStream(e, limit, chunks, ending).run.st;
            if Fits(e, limit, FRESH.run, chunks) then t == BatchTurn(e, Concat(chunks), ending) else Failed(t.sink)
  {
    hide ConsumeAll, Fits, BatchTurn, Failed, Open, Added;
    if Fits(e, limit, FRESH.run, chunks) {
      ChunkingDoesNotMatter(e, limit, chunks, ending);
    } else {
      StartIsOpen();
      OverflowFails(e, limit, FRESH, chunks);
      FailedIsFinished(ConsumeAll(e, limit, FRESH, chunks).run.st.sink);
    }
  }

  /** Every run over a body that reports a refusal ends in failure. */
  lemma RefusedRunFails(e: Env, limit: nat, chunks: seq<seq<byte>>, ending: Ending, k: nat)
    requires k < |Reported(e, Concat(chunks))|
    requires StopDisposition(Some(Reported(e, Concat(chunks))[k]), false).TerminalRefusal?
    ensures Failed(RunStream(e, limit, chunks, ending).run.st.sink)
  {
    hide RunStream, Reported, StopDisposition, Failed, BatchTurn;
    FitsOrFails(e, limit, chunks, ending);
    RefusalEndsInFailure(e, Concat(chunks), ending, k);
  }

  /** Every run that finishes with "stop" or "tool_calls" saw only end_turn and tool_use. */
  lemma CleanRunSawOnlyCleanReasons(e: Env, limit: nat, chunks: seq<seq<byte>>, ending: Ending)
    requires Finished(RunStream(e, limit, chunks, ending).run.st.sink) in {Some("stop"), Some("tool_calls")}
    ensures forall r :: r in Reported(e, Concat(chunks)) ==> r == "end_turn" || r == "tool_use"
  {
    hide RunStream, Reported, Failed, BatchTurn, Finished, Fits;
    FitsOrFails(e, limit, chunks, ending);
    var k := RunStream(e, limit, chunks, ending).run.st.sink;
    if Fits(e, limit, FRESH.run, chunks) {
      CleanFinishSawOnlyCleanReasons(e, Concat(chunks), ending);
    } else {
      FailedHasNoReason(k);
      assert false;
    }
  }

  // ----- the calls on the wire -----

  lemma SucceededIsNotFailed(k: Sink)
    requires Succeeded(k)
    ensures !Failed(k) && k.outs != [] && k.outs[|k.outs| - 1].Done?
  {
  }

  /** A run that succeeded got through all its events and reached the end with nothing left over. */
  lemma SucceededAtEnd(e: Env, body: seq<byte>, ending: Ending)
    requires Succeeded(BatchTurn(e, body, ending).sink)
    ensures var events := DecodeAll(e.codec, body).events;
            RunEvents(e, START, events).1
              && BatchTurn(e, body, ending) == FinishTurn(e, RunEvents(e, START, events).0, [])
  {
    hide DecodeAll, RunEvents, FinishTurn, Succeeded, Failed, Open, Corrupt, Fail, DrainBytes;
    var d := DecodeAll(e.codec, body);
    var (t, go) := RunEvents(e, START, d.events);
    SucceededIsNotFailed(BatchTurn(e, body, ending).sink);
    DrainRunsEvents(e, START, body);
    StartIsOpen();
    RunStaysOpen(e, START, d.events);
    if !go {
      FailedIsFinished(t.sink);
    } else if d.corrupt {
      CorruptFails(t);
      FailedIsFinished(Corrupt(t).sink);
    } else {
      OpenIsUnfinished(t.sink);
      FailTurnEnds(t, "upstream_read_error", "kiro_missing_terminal", "upstream_error", TerminalIncomplete);
      LeftoverFails(e, t, d.rest);
    }
  }

  lemma LeftoverFails(e: Env, t: Turn, rest: seq<byte>)
    requires Open(t.sink)
    ensures rest != [] ==> Failed(FinishTurn(e, t, rest).sink)
  {
    FailTurnEnds(t, "incomplete_eventstream_frame", "kiro_missing_terminal", "incomplete_frame", TerminalIncomplete);
  }
}
