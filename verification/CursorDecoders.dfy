/** Cursor's two response decoders, JSON and SSE, over the same buffered protobuf response (non-Composer models). */
module CursorDecoders {
  import opened Bytes

  // ----- frames -----

  datatype Fragment = Fragment(id: string, name: string, arguments: string, isLast: bool)

  /** What extractTextFromResponse finds in a payload; empty strings stand for absent text. */
  datatype Extract = Extract(error: string, tool: Option<Fragment>, text: string)

  datatype Reply = ProtocolError(code: string) | UpstreamError(body: string) | RateLimited(message: string)

  /** Decompression, JSON error sniffing and protobuf extraction are arbitrary functions of the payload. */
  datatype Env = Env(
    maxBytes: nat,
    inflate: (byte, seq<byte>) -> seq<byte>,
    mentionsError: seq<byte> -> bool,                 // starts with '{' and contains "error"
    errorReply: seq<byte> -> Option<Reply>,           // createErrorResponse, when the payload is JSON
    extract: seq<byte> -> Extract)

  datatype FrameRead = Eof | Incomplete | Read(payload: seq<byte>, next: nat)

  /** readCursorFrame */
  function ReadFrame(e: Env, b: seq<byte>, offset: nat): (r: FrameRead)
    requires offset <= |b|
    ensures r.Read? ==> offset < r.next <= |b|
    ensures r.Eof? <==> offset == |b|
  {
    if offset == |b| then Eof
    else if offset + 5 > |b| then Incomplete
    else
      var length := U32(b, offset + 1);
      if offset + 5 + length > |b| then Incomplete
      else Read(e.inflate(b[offset], b[offset + 5..offset + 5 + length]), offset + 5 + length)
  }

  /** The payloads of a buffer, and whether it breaks off inside a frame. */
  datatype Framed = Framed(payloads: seq<seq<byte>>, complete: bool)

  function Payloads(e: Env, b: seq<byte>, offset: nat): Framed
    requires offset <= |b|
    decreases |b| - offset
  {
    match ReadFrame(e, b, offset)
    case Eof => Framed([], true)
    case Incomplete => Framed([], false)
    case Read(p, next) => var f := Payloads(e, b, next); Framed([p] + f.payloads, f.complete)
  }

  function Refusal(e: Env, b: seq<byte>): Option<Reply>
  {
    if b == [] then Some(ProtocolError("missing_response_body"))
    else if |b| > e.maxBytes then Some(ProtocolError("cursor_response_too_large"))
    else None
  }

  // ----- tool calls under construction -----

  datatype Call = Call(id: string, name: string, arguments: string)

  function Find(calls: seq<Call>, id: string): (r: Option<nat>)
    ensures r.Some? ==> r.value < |calls| && calls[r.value].id == id
    ensures r.None? ==> forall i :: 0 <= i < |calls| ==> calls[i].id != id
  {
    if calls == [] then None
    else if calls[0].id == id then Some(0)
    else match Find(calls[1..], id)
      case None => None
      case Some(k) => Some(k + 1)
  }

  /** The insertion-ordered map both decoders keep. */
  function Accumulate(calls: seq<Call>, f: Fragment): seq<Call>
  {
    match Find(calls, f.id)
    case None => calls + [Call(f.id, f.name, f.arguments)]
    case Some(k) => calls[k := calls[k].(arguments := calls[k].arguments + f.arguments)]
  }

  // ----- outcomes shared by both loops -----

  datatype Outcome<S> = Going(state: S) | Broke(state: S) | Replied(reply: Reply)

  /** How a payload is met: an error ends the run, quietly if something was already decoded. */
  datatype Met = Ends | Answers(reply: Reply) | Decodes(x: Extract)

  function Meet(e: Env, hasContent: bool, payload: seq<byte>): Met
  {
    if e.mentionsError(payload) && hasContent then Ends
    else if e.mentionsError(payload) && e.errorReply(payload).Some? then Answers(e.errorReply(payload).value)
    else
      var x := e.extract(payload);
      if x.error == "" then Decodes(x) else if hasContent then Ends else Answers(RateLimited(x.error))
  }

  // ----- JSON -----

  datatype JsonState = JsonState(content: string, calls: seq<Call>, finals: seq<Call>)

  function JsonTool(s: JsonState, f: Fragment): JsonState
  {
    var calls := Accumulate(s.calls, f);
    var k := Find(calls, f.id);
    JsonState(s.content, calls, if f.isLast && k.Some? then s.finals + [calls[k.value]] else s.finals)
  }

  function JsonStep(e: Env, s: JsonState, payload: seq<byte>): Outcome<JsonState>
  {
    match Meet(e, s.content != "" || s.calls != [], payload)
    case Ends => Broke(s)
    case Answers(r) => Replied(r)
    case Decodes(x) =>
      var s' := if x.tool.Some? then JsonTool(s, x.tool.value) else s;
      Going(s'.(content := s'.content + x.text))
  }

  function JsonRun(e: Env, s: JsonState, ps: seq<seq<byte>>): Outcome<JsonState>
    decreases |ps|
  {
    if ps == [] then Going(s)
    else match JsonStep(e, s, ps[0])
      case Going(s') => JsonRun(e, s', ps[1..])
      case other => other
  }

  datatype Answer = Refused(reply: Reply) | Answered(content: string, calls: seq<Call>, finishReason: string)

  /** Calls finalized by isLast first, then the rest of the map. */
  function Unfinished(calls: seq<Call>, finals: seq<Call>): seq<Call>
  {
    if calls == [] then []
    else (if Find(finals, calls[0].id).Some? then [] else [calls[0]]) + Unfinished(calls[1..], finals)
  }

  function JsonCalls(s: JsonState): seq<Call>
  {
    s.finals + Unfinished(s.calls, s.finals)
  }

  function FinishReason(n: nat): string
  {
    if n > 0 then "tool_calls" else "stop"
  }

  function JsonAnswer(s: JsonState): Answer
  {
    Answered(s.content, JsonCalls(s), FinishReason(|JsonCalls(s)|))
  }

  function ToJson(e: Env, b: seq<byte>): Answer
  {
    if Refusal(e, b).Some? then Refused(Refusal(e, b).value)
    else
      var f := Payloads(e, b, 0);
      match JsonRun(e, JsonState("", [], []), f.payloads)
      case Replied(r) => Refused(r)
      case Broke(s) => JsonAnswer(s)
      case Going(s) => if f.complete then JsonAnswer(s) else Refused(ProtocolError("invalid_cursor_protobuf"))
  }

  /** The JSON decoder as a loop over the buffer. */
  method TransformToJson(e: Env, b: seq<byte>) returns (a: Answer)
    ensures a == ToJson(e, b)
  {
    hide JsonStep, ReadFrame, JsonAnswer;
    var invalid := Refusal(e, b);
    if invalid.Some? {
      return Refused(invalid.value);
    }
    var offset, s := 0, JsonState("", [], []);
    ghost var all := Payloads(e, b, 0);
    while offset < |b|
      invariant 0 <= offset <= |b|
      invariant JsonRun(e, s, Payloads(e, b, offset).payloads) == JsonRun(e, JsonState("", [], []), all.payloads)
      invariant Payloads(e, b, offset).complete == all.complete
    {
      var frame := ReadFrame(e, b, offset);
      if frame.Incomplete? {
        return Refused(ProtocolError("invalid_cursor_protobuf"));
      }
      assert frame.Read?;
      ghost var rest := Payloads(e, b, frame.next);
      assert ([frame.payload] + rest.payloads)[1..] == rest.payloads;
      offset := frame.next;
      match JsonStep(e, s, frame.payload) {
        case Replied(r) => return Refused(r);
        case Broke(last) => return JsonAnswer(last);
        case Going(next) => s := next;
      }
    }
    return JsonAnswer(s);
  }

  // ----- SSE -----

  datatype Chunk =
    | Role
    | Text(withRole: bool, text: string)
    | ToolDelta(index: nat, id: string, name: string, arguments: string)

  datatype SseState = SseState(content: string, chunks: seq<Chunk>, calls: seq<Call>)

  function SseTool(s: SseState, f: Fragment): SseState
  {
    var chunks := if s.chunks == [] then [Role] else s.chunks;
    var calls := Accumulate(s.calls, f);
    match Find(s.calls, f.id)
    case None => SseState(s.content, chunks + [ToolDelta(|s.calls|, f.id, f.name, f.arguments)], calls)
    case Some(k) =>
      var sent := if f.arguments == "" then chunks else chunks + [ToolDelta(k, f.id, f.name, f.arguments)];
      SseState(s.content, sent, calls)
  }

  function SseText(s: SseState, text: string): SseState
  {
    if text == "" then s
    else SseState(s.content + text, s.chunks + [Text(s.chunks == [] && s.calls == [], text)], s.calls)
  }

  function SseStep(e: Env, s: SseState, payload: seq<byte>): Outcome<SseState>
  {
    match Meet(e, s.chunks != [] || s.content != "" || s.calls != [], payload)
    case Ends => Broke(s)
    case Answers(r) => Replied(r)
    case Decodes(x) => Going(SseText(if x.tool.Some? then SseTool(s, x.tool.value) else s, x.text))
  }

  function SseRun(e: Env, s: SseState, ps: seq<seq<byte>>): Outcome<SseState>
    decreases |ps|
  {
    if ps == [] then Going(s)
    else match SseStep(e, s, ps[0])
      case Going(s') => SseRun(e, s', ps[1..])
      case other => other
  }

  datatype Stream = RefusedStream(reply: Reply) | Streamed(chunks: seq<Chunk>, finishReason: string)

  function SseAnswer(s: SseState): Stream
  {
    Streamed(if s.chunks == [] && s.calls == [] then [Role] else s.chunks, FinishReason(|s.calls|))
  }

  function ToSse(e: Env, b: seq<byte>): Stream
  {
    if Refusal(e, b).Some? then RefusedStream(Refusal(e, b).value)
    else
      var f := Payloads(e, b, 0);
      match SseRun(e, SseState("", [], []), f.payloads)
      case Replied(r) => RefusedStream(r)
      case Broke(s) => SseAnswer(s)
      case Going(s) => if f.complete then SseAnswer(s) else RefusedStream(ProtocolError("invalid_cursor_protobuf"))
  }

  /** The SSE decoder as a loop over the buffer. */
  method TransformToSse(e: Env, b: seq<byte>) returns (a: Stream)
    ensures a == ToSse(e, b)
  {
    hide SseStep, ReadFrame, SseAnswer;
    var invalid := Refusal(e, b);
    if invalid.Some? {
      return RefusedStream(invalid.value);
    }
    var offset, s := 0, SseState("", [], []);
    ghost var all := Payloads(e, b, 0);
    while offset < |b|
      invariant 0 <= offset <= |b|
      invariant SseRun(e, s, Payloads(e, b, offset).payloads) == SseRun(e, SseState("", [], []), all.payloads)
      invariant Payloads(e, b, offset).complete == all.complete
    {
      var frame := ReadFrame(e, b, offset);
      if frame.Incomplete? {
        return RefusedStream(ProtocolError("invalid_cursor_protobuf"));
      }
      assert frame.Read?;
      ghost var rest := Payloads(e, b, frame.next);
      assert ([frame.payload] + rest.payloads)[1..] == rest.payloads;
      offset := frame.next;
      match SseStep(e, s, frame.payload) {
        case Replied(r) => return RefusedStream(r);
        case Broke(last) => return SseAnswer(last);
        case Going(next) => s := next;
      }
    }
    return SseAnswer(s);
  }
}
