/** The turn state machine behind a Kiro response: what each event, and the end of the stream, does. */
module KiroTurn {
  import opened Bytes
  import opened Json
  import opened KiroStop
  import opened EventStream

  const TOOL_OVERHEAD := 32

  /** Runtime services and request settings. Nothing is assumed about them. */
  datatype Env = Env(
    codec: Codec,
    maxToolBytes: nat,
    size: string -> nat,                      // UTF-8 length
    show: Json -> string,                     // JSON.stringify
    trim: string -> string,
    clean: Json -> string,                    // String(value) trimmed, snake-cased and lower-cased
    freshId: nat -> string,                   // id of a call that came without one
    strip: (bool, string) -> (bool, string),  // <thinking> removal: (inside, text)
    rename: string -> string                  // toolNameMap
  )

  datatype Input = NoInput | Chunks(parts: seq<string>) | Object(value: Json)

  datatype Tool = Tool(id: string, name: string, input: Input)

  datatype Diagnostics = Diagnostics(
    provenance: string, transport: string, reason: Option<string>, disposition: Disposition)

  datatype Delta =
    | Content(text: string)
    | Reasoning(value: Json)
    | CallHead(index: nat, id: string, name: string)
    | CallArguments(index: nat, text: string)

  /** What is written to the client. An error event carries its own end marker. */
  datatype Out =
    | Chunk(withRole: bool, delta: Delta)
    | Finish(finishReason: string)
    | Done
    | Error(code: string, detail: Diagnostics)

  /** Tool calls being collected: an insertion-ordered map keyed by id, and its byte counter. */
  datatype Buffered = Buffered(tools: seq<Tool>, bytes: int)

  /** Everything written or reported so far. */
  datatype Sink = Sink(
    outs: seq<Out>, reports: seq<Diagnostics>, chunkIndex: nat, toolCounter: nat, finished: bool)

  /** What the turn has produced. */
  datatype Seen = Seen(
    text: bool, reasoning: bool, code: bool, toolCalls: bool, toolUse: bool,
    explicitStop: bool, toolError: bool, inThinking: bool)
  {
    predicate Output() { text || reasoning || code || toolCalls }
  }

  datatype Stop = Stop(reason: Option<string>, provenance: Option<string>)

  datatype Turn = Turn(
    buffered: Buffered, sink: Sink, seen: Seen, stop: Stop, transport: string, validatedFrames: nat)

  const START := Turn(Buffered([], 0), Sink([], [], 0, 0, false),
                      Seen(false, false, false, false, false, false, false, false),
                      Stop(None, None), "consuming_response", 0)

  // ----- output primitives -----

  function Emit(k: Sink, d: Delta): Sink
  {
    k.(chunkIndex := k.chunkIndex + 1, outs := k.outs + [Chunk(k.chunkIndex == 0, d)])
  }

  function FailWith(k: Sink, code: string, detail: Diagnostics): Sink
  {
    k.(finished := true, outs := k.outs + [Error(code, detail)], reports := k.reports + [detail])
  }

  function Fail(t: Turn, provenance: string, code: string, transport: string, disposition: Disposition): Turn
  {
    Turn(t.buffered, FailWith(t.sink, code, Diagnostics(provenance, transport, t.stop.reason, disposition)),
         t.seen, Stop(t.stop.reason, Some(provenance)), transport, t.validatedFrames)
  }

  function Corrupt(t: Turn): Turn
  {
    Fail(t, "corrupt_eventstream_frame", "kiro_missing_terminal", "corrupt_frame", TerminalIncomplete)
  }

  // ----- tool fragments -----

  datatype Outcome = Accepted | Rejected | Exceeded

  function Find(tools: seq<Tool>, id: string): (r: Option<nat>)
    ensures r.Some? ==> r.value < |tools| && tools[r.value].id == id
    ensures r.None? ==> forall k :: 0 <= k < |tools| ==> tools[k].id != id
  {
    if tools == [] then None
    else if tools[0].id == id then Some(0)
    else match Find(tools[1..], id)
      case None => None
      case Some(k) => Some(k + 1)
  }

  /** appendToolInput on one tool: the new input, or none when the fragment is refused. */
  function Append(have: Input, value: Option<Json>): Option<Input>
  {
    match value
    case None => Some(have)
    case Some(JStr(s)) =>
      if have.Object? then None else Some(Chunks((if have.Chunks? then have.parts else []) + [s]))
    case Some(JObj(_)) =>
      if have.Chunks? then None else Some(Object(value.value))
    case Some(_) => None
  }

  /** What the byte counter is changed by: a string adds up, an object replaces its predecessor. */
  function Growth(e: Env, have: Input, value: Json): int
  {
    if value.JStr? then e.size(value.s)
    else e.size(e.show(value)) - (if have.Object? then e.size(e.show(have.value)) else 0)
  }

  function Checked(e: Env, b: Buffered): (Buffered, Outcome)
  {
    (b, if b.bytes <= e.maxToolBytes then Accepted else Exceeded)
  }

  function AppendAt(e: Env, b: Buffered, k: nat, value: Option<Json>): (Buffered, Outcome)
    requires k < |b.tools|
  {
    var tool := b.tools[k];
    match Append(tool.input, value)
    case None => (b, Rejected)
    case Some(next) =>
      if value.None? then (b, Accepted)
      else Checked(e, Buffered(b.tools[k := tool.(input := next)], b.bytes + Growth(e, tool.input, value.value)))
  }

  /** The id a fragment is filed under; none when its own id is unusable. */
  function FragmentId(e: Env, b: Buffered, v: Json): Option<string>
  {
    var id := Get(Some(v), "toolUseId");
    if Nullish(id) then Some(e.freshId(|b.tools| + 1))
    else if !IsText(id) || e.trim(id.value.s) == "" then None
    else Some(id.value.s)
  }

  function FragmentName(e: Env, v: Json): string
  {
    var name := Get(Some(v), "name");
    if IsText(name) then e.trim(name.value.s) else ""
  }

  function Opened(e: Env, b: Buffered, id: string, name: string): Buffered
  {
    Buffered(b.tools + [Tool(id, name, NoInput)], b.bytes + e.size(id) + e.size(name) + TOOL_OVERHEAD)
  }

  function AddFragment(e: Env, b: Buffered, v: Json): (Buffered, Outcome)
  {
    var name, id := FragmentName(e, v), FragmentId(e, b, v);
    if name == "" || id.None? then (b, Rejected)
    else match Find(b.tools, id.value)
      case Some(k) =>
        if b.tools[k].name != name then (b, Rejected) else AppendAt(e, b, k, Get(Some(v), "input"))
      case None =>
        var (b', o) := Checked(e, Opened(e, b, id.value, name));
        if o.Exceeded? then (b', o) else AppendAt(e, b', |b.tools|, Get(Some(v), "input"))
  }

  /** The values of one toolUseEvent; the first one refused ends the event. */
  function AddFragments(e: Env, b: Buffered, vs: seq<Json>): (Buffered, Outcome)
    decreases |vs|
  {
    if vs == [] then (b, Accepted)
    else
      var (b', o) := AddFragment(e, b, vs[0]);
      if o.Accepted? then AddFragments(e, b', vs[1..]) else (b', o)
  }

  function FragmentValues(payload: Option<Json>): seq<Json>
  {
    if payload.Some? && payload.value.JArr? then payload.value.items
    else if payload.None? then [JNull]
    else [payload.value]
  }

  function ToolUseEvent(e: Env, b: Buffered, payload: Option<Json>): (Buffered, Outcome)
  {
    var vs := FragmentValues(payload);
    if vs == [] || !Truthy(Some(vs[0])) then (b, Rejected) else AddFragments(e, b, vs)
  }

  // ----- events -----

  function HeaderText(ev: Event, name: string): string
  {
    if name in ev.headers && ev.headers[name].HText? then ev.headers[name].text else ""
  }

  function NormalizeReason(e: Env, v: Option<Json>): Option<string>
  {
    if Truthy(v) then Canonical(e.clean(v.value)) else None
  }

  function ReasonIn(e: Env, v: Option<Json>): Option<string>
  {
    NormalizeReason(e, Coalesce(Get(v, "stopReason"), Get(v, "stop_reason")))
  }

  /** The stop reason an event reports, if any. */
  function ReportedReason(e: Env, sawToolUse: bool, ev: Event): Option<string>
  {
    var kind := HeaderText(ev, ":event-type");
    if kind == "messageStopEvent" then
      match ReasonIn(e, ev.payload)
      case Some(r) => Some(r)
      case None => Some(if sawToolUse then "tool_use" else "end_turn")
    else if kind == "metadataEvent" || kind == "MetadataEvent" then
      ReasonIn(e, OrElse(OrElse(Get(ev.payload, "metadataEvent"), Get(ev.payload, "metadata")), ev.payload))
    else None
  }

  function StopWith(s: Stop, reason: string, provenance: string): Stop
  {
    var merged := Merge(s.reason, Some(reason));
    Stop(merged, if merged != s.reason then Some(provenance) else s.provenance)
  }

  function TextEvent(e: Env, t: Turn, text: string): Turn
  {
    var (inside, visible) := e.strip(t.seen.inThinking, text);
    if visible != "" || !t.seen.reasoning
    then t.(sink := Emit(t.sink, Content(visible)),
            seen := t.seen.(inThinking := inside, text := t.seen.text || visible != ""))
    else t.(seen := t.seen.(inThinking := inside))
  }

  function ReasoningEvent(t: Turn, payload: Option<Json>): Turn
  {
    var v := OrElse(Get(payload, "reasoningContentEvent"), payload);
    var content := if IsText(v) then v else OrElse(Get(v, "text"), Get(v, "content"));
    if Truthy(content)
    then t.(sink := Emit(t.sink, Reasoning(content.value)), seen := t.seen.(reasoning := true))
    else t
  }

  function StopEvent(e: Env, t: Turn, ev: Event): Turn
  {
    match ReportedReason(e, t.seen.toolUse, ev)
    case None => t
    case Some(r) =>
      t.(seen := t.seen.(explicitStop := true),
         stop := StopWith(t.stop, r, if HeaderText(ev, ":event-type") == "messageStopEvent"
                                     then "message_stop_event" else "metadata_stop_reason"))
  }

  /** One event that is neither a tool fragment nor an upstream error. Usage counters are not modelled. */
  function PlainEvent(e: Env, t: Turn, ev: Event): Turn
  {
    var kind := HeaderText(ev, ":event-type");
    var content := Get(ev.payload, "content");
    if kind == "assistantResponseEvent" && IsText(content) then TextEvent(e, t, content.value.s)
    else if kind == "reasoningContentEvent" then ReasoningEvent(t, ev.payload)
    else if kind == "codeEvent" && IsText(content) then
      t.(sink := Emit(t.sink, Content(content.value.s)), seen := t.seen.(code := true))
    else StopEvent(e, t, ev)
  }

  predicate UpstreamError(ev: Event)
  {
    HeaderText(ev, ":message-type") == "error" || HeaderText(ev, ":message-type") == "exception"
  }

  function ToolStep(e: Env, t: Turn, payload: Option<Json>): (Turn, bool)
  {
    var (b, o) := ToolUseEvent(e, t.buffered, payload);
    var t' := t.(buffered := b, seen := t.seen.(toolUse := true));
    match o
    case Accepted => (t', true)
    case Rejected => (t'.(seen := t'.seen.(toolError := true)), true)
    case Exceeded =>
      (Fail(t', "integrity_buffer_exceeded", "kiro_integrity_buffer_exceeded", t.transport, TerminalIncomplete), false)
  }

  function Validated(t: Turn): Turn
  {
    t.(transport := "valid_complete_frame", validatedFrames := t.validatedFrames + 1)
  }

  /** One validated frame: the new state and whether reading goes on. */
  function Step(e: Env, before: Turn, ev: Event): (Turn, bool)
  {
    var t := Validated(before);
    if UpstreamError(ev) then
      (Fail(t, "upstream_eventstream_error", "kiro_upstream_eventstream_error", "upstream_error", TerminalIncomplete),
        false)
    else if HeaderText(ev, ":event-type") == "toolUseEvent" then ToolStep(e, t, ev.payload)
    else (PlainEvent(e, t, ev), true)
  }

  // ----- end of stream -----

  /** The arguments a buffered call can be emitted with; none when the call is unusable. */
  function Usable(e: Env, tool: Tool): Option<Json>
  {
    var input := match tool.input
      case NoInput => None
      case Object(v) => Some(v)
      case Chunks(parts) => e.codec.json(Concat(parts));
    if input.None? || !input.value.JObj? then None
    else if tool.name != "tool_call" then input
    else
      var nested := Get(input, "name");
      if IsText(nested) && e.trim(nested.value.s) != "" && "arguments" in input.value.fields then input else None
  }

  function EmitCall(e: Env, k: Sink, tool: Tool, input: Json): Sink
  {
    var n := k.toolCounter;
    Emit(Emit(k, CallHead(n, tool.id, e.rename(tool.name))), CallArguments(n, e.show(input))).(toolCounter := n + 1)
  }

  /** emitTools: unusable calls are skipped, the rest written in map order. */
  function EmitTools(e: Env, k: Sink, tools: seq<Tool>): Sink
    decreases |tools|
  {
    if tools == [] then k
    else match Usable(e, tools[0])
      case None => EmitTools(e, k, tools[1..])
      case Some(input) => EmitTools(e, EmitCall(e, k, tools[0], input), tools[1..])
  }

  predicate AnyUsable(e: Env, tools: seq<Tool>)
  {
    exists i :: 0 <= i < |tools| && Usable(e, tools[i]).Some?
  }

  predicate AnyUnusable(e: Env, tools: seq<Tool>)
  {
    exists i :: 0 <= i < |tools| && Usable(e, tools[i]).None?
  }

  function FailureCode(d: Disposition): string
  {
    match d
    case RetryableFailure => "kiro_retryable_protocol_failure"
    case TerminalRefusal => "kiro_terminal_refusal"
    case TerminalIncomplete => "kiro_terminal_incomplete"
    case _ => "kiro_unknown_stop_reason"
  }

  predicate TruncatedAfterOutput(t: Turn, d: Disposition)
  {
    d.TerminalIncomplete? && t.stop.reason.Some? && t.stop.reason.value in TRUNCATIONS && t.sink.chunkIndex > 0
  }

  function ProvenanceOr(t: Turn, other: string): string
  {
    if t.stop.provenance.Some? then t.stop.provenance.value else other
  }

  function FailStop(t: Turn, d: Disposition): Turn
  {
    Fail(t, ProvenanceOr(t, "metadata_stop_reason"), FailureCode(d), t.transport, d)
  }

  function InvalidTool(t: Turn): Turn
  {
    Fail(t, "invalid_tool_call", "invalid_kiro_tool_call", t.transport, RetryableFailure)
  }

  function FinishReason(t: Turn, d: Disposition): string
  {
    if TruncatedAfterOutput(t, d) then "length"
    else if t.seen.toolCalls then "tool_calls"
    else if d.Length? then "length"
    else "stop"
  }

  function Succeed(t: Turn, d: Disposition): Turn
  {
    var report := Diagnostics(ProvenanceOr(t, "clean_eventstream_eof"), t.transport, t.stop.reason,
                              if TruncatedAfterOutput(t, d) then Length else d);
    t.(sink := t.sink.(finished := true, outs := t.sink.outs + [Finish(FinishReason(t, d)), Done],
                       reports := t.sink.reports + [report]))
  }

  /** The part of finish() after the tools were emitted. */
  function Close(t: Turn): Turn
  {
    var d := StopDisposition(t.stop.reason, t.seen.toolCalls);
    if !t.seen.Output() && (t.stop.reason == Some("tool_use") || t.seen.toolError) then InvalidTool(t)
    else if !t.seen.Output() && !t.seen.explicitStop then
      Fail(t, "empty_response_eof", "kiro_missing_terminal", t.transport, TerminalIncomplete)
    else if Failing(d) && !TruncatedAfterOutput(t, d) then FailStop(t, d)
    else Succeed(t, d)
  }

  function AfterTools(e: Env, t: Turn): Turn
  {
    var tools := t.buffered.tools;
    t.(buffered := Buffered([], 0), sink := EmitTools(e, t.sink, tools),
       seen := t.seen.(toolCalls := t.seen.toolCalls || AnyUsable(e, tools),
                       toolError := t.seen.toolError || AnyUnusable(e, tools)))
  }

  /** finish(): `tail` is what was left undecoded. */
  function FinishTurn(e: Env, before: Turn, tail: seq<byte>): Turn
  {
    if before.sink.finished then before
    else if tail != [] then
      Fail(before, "incomplete_eventstream_frame", "kiro_missing_terminal", "incomplete_frame", TerminalIncomplete)
    else
      var t := before.(transport := "clean_eof");
      var declared := StopDisposition(t.stop.reason, t.seen.toolUse);
      if Failing(declared) && !TruncatedAfterOutput(t, declared) then FailStop(t, declared)
      else Close(AfterTools(e, t))
  }
}
