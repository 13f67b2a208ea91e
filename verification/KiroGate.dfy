/** The integrity gate: it buffers a whole Kiro run and releases all of it or none of it. */
module KiroGate {
  import opened Bytes
  import opened KiroStop
  import opened KiroTurn
  import opened KiroTurnProofs
  import opened KiroStream

  /** SSE rendering and the two text heuristics are arbitrary. */
  datatype Gate = Gate(
    maxBytes: nat,
    render: Wire -> seq<byte>,
    ellipsis: string -> bool,      // isEllipsisOnly
    shortFinal: string -> bool,    // isShortFutureAction
    blank: string -> bool)         // !text.trim()

  /** A read that did not come back: nothing, or a timeout or abort before the read with this index. */
  datatype Interrupt = Never | TimeoutAt(at: nat) | AbortAt(at: nat)

  /** What the gate gathers while it reads: the texts, whether calls were seen, whether an error was seen. */
  datatype Observed = Observed(content: string, reasoning: string, calls: bool, error: bool)

  function Observe(o: Observed, w: Wire): Observed
  {
    match w
    case Heartbeat => o
    case Sent(Error(_, _)) => o.(error := true)
    case Sent(Chunk(_, Content(text))) => o.(content := o.content + text)
    case Sent(Chunk(_, Reasoning(JStr(s)))) => o.(reasoning := o.reasoning + s)
    case Sent(Chunk(_, CallHead(_, _, _))) => o.(calls := true)
    case Sent(Chunk(_, CallArguments(_, _))) => o.(calls := true)
    case _ => o
  }

  function ObserveAll(wire: seq<Wire>): Observed
  {
    if wire == [] then Observed("", "", false, false)
    else Observe(ObserveAll(wire[..|wire| - 1]), wire[|wire| - 1])
  }

  function Rendered(g: Gate, wire: seq<Wire>): seq<byte>
  {
    if wire == [] then [] else Rendered(g, wire[..|wire| - 1]) + g.render(wire[|wire| - 1])
  }

  datatype Attempt =
    | CompleteRun(bytes: seq<byte>)
    | TooLarge
    | TerminalStop(detail: Diagnostics)
    | UpstreamFailure
    | BrokenTool
    | RetryableStop
    | MissingTerminal
    | Ellipsis
    | ShortFinal
    | Aborted

  predicate Suspicious(g: Gate, o: Observed)
  {
    !o.calls && (g.ellipsis(o.content) || (g.blank(o.content) && g.ellipsis(o.reasoning)) || g.shortFinal(o.content))
  }

  /** The verdict once the whole run was read: re-derived from the report and what was observed and buffered. */
  function Judge(g: Gate, o: Observed, bytes: seq<byte>, report: Option<Diagnostics>): Attempt
  {
    var d := if report.Some? then report.value
             else Diagnostics("missing_terminal_diagnostics", "unknown", None, TerminalIncomplete);
    if d.disposition.RetryableFailure? then
      (if d.provenance == "invalid_tool_call" then BrokenTool else RetryableStop)
    else if Failing(d.disposition) then
      if d.provenance == "upstream_eventstream_error" then UpstreamFailure
      else if d.provenance in ["integrity_buffer_exceeded", "metadata_stop_reason", "message_stop_event"]
        then TerminalStop(d)
      else MissingTerminal
    else if o.error then MissingTerminal
    else if !o.calls && (g.ellipsis(o.content) || (g.blank(o.content) && g.ellipsis(o.reasoning))) then Ellipsis
    else if !o.calls && g.shortFinal(o.content) then ShortFinal
    else CompleteRun(bytes)
  }

  function JudgeWire(g: Gate, wire: seq<Wire>, report: Option<Diagnostics>): Attempt
  {
    Judge(g, ObserveAll(wire), Rendered(g, wire), report)
  }

  /** The first `n` chunks rendered fit. */
  predicate FitsUpTo(g: Gate, wire: seq<Wire>, n: nat)
    requires n <= |wire|
  {
    forall i :: 0 <= i <= n ==> |Rendered(g, wire[..i])| <= g.maxBytes
  }

  /** The read loop of the gate. */
  method ReadAttempt(g: Gate, wire: seq<Wire>, report: Option<Diagnostics>, interrupt: Interrupt) returns (a: Attempt)
    ensures a.CompleteRun? ==> interrupt.Never? || interrupt.at > |wire|
    ensures a.CompleteRun? ==> a == JudgeWire(g, wire, report) && FitsUpTo(g, wire, |wire|)
    ensures interrupt.Never? && FitsUpTo(g, wire, |wire|) ==> a == JudgeWire(g, wire, report)
    ensures interrupt.Never? && !FitsUpTo(g, wire, |wire|) ==> a == TooLarge
    ensures a.Aborted? ==> interrupt.AbortAt?
  {
    var chunks: seq<byte> := [];
    var output := Observed("", "", false, false);
    var i := 0;
    while true
      invariant 0 <= i <= |wire|
      invariant chunks == Rendered(g, wire[..i]) && output == ObserveAll(wire[..i])
      invariant FitsUpTo(g, wire, i)
      invariant !interrupt.Never? ==> interrupt.at >= i
      decreases |wire| - i
    {
      if !interrupt.Never? && interrupt.at == i {
        return if interrupt.AbortAt? then Aborted else MissingTerminal;
      }
      if i == |wire| {
        break;
      }
      assert wire[..i + 1][..i] == wire[..i];
      var value := g.render(wire[i]);
      if |chunks| + |value| > g.maxBytes {
        assert |Rendered(g, wire[..i + 1])| > g.maxBytes;
        return TooLarge;
      }
      chunks, output, i := chunks + value, Observe(output, wire[i]), i + 1;
    }
    assert wire[..|wire|] == wire;
    a := Judge(g, output, chunks, report);
  }

  /** The read loop as a function of its inputs. */
  function Attempted(g: Gate, wire: seq<Wire>, report: Option<Diagnostics>): Attempt
  {
    if FitsUpTo(g, wire, |wire|) then JudgeWire(g, wire, report) else TooLarge
  }

  /** What the client is given instead of, or as, the run. */
  datatype Release = Released(bytes: seq<byte>) | Refused(code: string) | AbortedRelease

  /** validateAcceptedResponse */
  function Respond(a: Attempt): Release
  {
    match a
    case CompleteRun(bytes) => Released(bytes)
    case Aborted => AbortedRelease
    case TooLarge => Refused("kiro_integrity_buffer_exceeded")
    case TerminalStop(d) =>
      Refused(if d.provenance == "integrity_buffer_exceeded" then "kiro_integrity_buffer_exceeded"
              else if d.disposition.TerminalRefusal? then "kiro_terminal_refusal"
              else if d.disposition.TerminalIncomplete? then "kiro_terminal_incomplete"
              else "kiro_unknown_stop_reason")
    case UpstreamFailure => Refused("kiro_upstream_eventstream_error")
    case Ellipsis => Refused("kiro_ellipsis_final")
    case ShortFinal => Refused("kiro_incomplete_final")
    case BrokenTool => Refused("invalid_kiro_tool_call")
    case RetryableStop => Refused("kiro_missing_terminal")
    case MissingTerminal => Refused("kiro_missing_terminal")
  }

  // ----- what is released -----

  lemma {:induction false} ErrorSeen(wire: seq<Wire>)
    ensures ObserveAll(wire).error <==> exists i :: 0 <= i < |SentOuts(wire)| && SentOuts(wire)[i].Error?
  {
    if wire != [] {
      var n := |wire| - 1;
      ErrorSeen(wire[..n]);
      var outs, before := SentOuts(wire), SentOuts(wire[..n]);
      assert forall i :: 0 <= i < |before| ==> outs[i] == before[i];
      if exists i :: 0 <= i < |before| && before[i].Error? {
        var i :| 0 <= i < |before| && before[i].Error?;
        assert outs[i].Error?;
      }
      if wire[n].Sent? {
        assert outs[|before|] == wire[n].out;
      }
    }
  }

  lemma SucceededHasNoError(k: Sink)
    requires Succeeded(k)
    ensures !exists i :: 0 <= i < |k.outs| && k.outs[i].Error?
  {
    var n := |k.outs| - 2;
    forall i | 0 <= i < |k.outs| ensures !k.outs[i].Error? {
      if i < n { assert k.outs[..n][i].Chunk?; }
    }
  }

  function LastReport(k: Sink): Option<Diagnostics>
  {
    if k.reports == [] then None else Some(k.reports[|k.reports| - 1])
  }

  /** The gate on top of a transformer run. */
  function Gated(g: Gate, e: Env, limit: nat, chunks: seq<seq<byte>>, ending: Ending): Release
  {
    var s := RunStream(e, limit, chunks, ending);
    Respond(Attempted(g, s.wire, LastReport(s.run.st.sink)))
  }

  lemma JudgeSucceeded(g: Gate, wire: seq<Wire>, k: Sink)
    requires Succeeded(k) && SentOuts(wire) == k.outs
    ensures var a := JudgeWire(g, wire, LastReport(k));
            if Suspicious(g, ObserveAll(wire)) then a.Ellipsis? || a.ShortFinal?
            else a == CompleteRun(Rendered(g, wire))
  {
    hide ObserveAll, Rendered, SentOuts;
    ErrorSeen(wire);
    SucceededHasNoError(k);
  }

  /**
   * All or nothing: the client gets the transformer's bytes exactly when the run succeeded, fits and looks
   * finished.
   */
  lemma ReleasedIffSucceeded(g: Gate, e: Env, limit: nat, chunks: seq<seq<byte>>, ending: Ending)
    ensures var s := RunStream(e, limit, chunks, ending);
            var r := Gated(g, e, limit, chunks, ending);
            && (r.Released? <==> Succeeded(s.run.st.sink) && FitsUpTo(g, s.wire, |s.wire|)
                                 && !Suspicious(g, ObserveAll(s.wire)))
            && (r.Released? ==> r.bytes == Rendered(g, s.wire))
            && (!r.Released? ==> r.Refused?)
  {
    hide RunStream, FitsUpTo, Suspicious, Rendered, Succeeded;
    var s := RunStream(e, limit, chunks, ending);
    OneEnding(e, limit, chunks, ending);
    if Succeeded(s.run.st.sink) {
      JudgeSucceeded(g, s.wire, s.run.st.sink);
    } else {
      assert Failing(LastReport(s.run.st.sink).value.disposition);
    }
  }

  /** However the gate's own reads go, a run the transformer failed is never released. */
  method GateNeverReleasesFailure(g: Gate, e: Env, limit: nat, chunks: seq<seq<byte>>, ending: Ending,
      interrupt: Interrupt)
    returns (r: Release)
    ensures var s := RunStream(e, limit, chunks, ending);
            r.Released? ==> Succeeded(s.run.st.sink) && r.bytes == Rendered(g, s.wire)
    ensures interrupt.Never? ==> r == Gated(g, e, limit, chunks, ending)
  {
    hide RunStream, FitsUpTo, Suspicious, Rendered, Succeeded;
    var s := RunStream(e, limit, chunks, ending);
    var a := ReadAttempt(g, s.wire, LastReport(s.run.st.sink), interrupt);
    r := Respond(a);
    ReleasedIffSucceeded(g, e, limit, chunks, ending);
  }
}
