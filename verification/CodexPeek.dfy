/**
 * The bounded look-ahead into an accepted Codex response: read at most 256 KiB, find the first event that
 * settles the matter, and otherwise hand the caller a body that is the upstream body again.
 */
module CodexPeek {
  import opened Bytes
  import opened Strings
  import opened Json
  import opened SseText

  const PEEK_BYTES: nat := 256 * 1024

  /** Library calls of the classifier. */
  datatype Env = Env(
    parse: string -> Option<Json>,  // JSON.parse, None when it throws
    show: Json -> string,           // String(value) of something that is not a string
    trim: string -> string,
    lower: string -> string
  )

  /** A streaming TextDecoder works byte by byte: new state and the text this byte completes. */
  datatype TextDecoder<!S> = TextDecoder(start: S, feed: (S, byte) -> (S, string), flush: S -> string)

  /** An upstream body: the chunks the reader returns, then the end or a read error. */
  datatype Body = Body(chunks: seq<seq<byte>>, intact: bool)

  datatype Verdict = Output | Failure(matched: string, message: string, contextOverflow: bool, accountFallback: bool)

  const TRANSIENT: seq<string> := ["server_is_overloaded", "service_unavailable_error"]
  const CAPACITY: seq<string> := ["selected model is at capacity", "model_at_capacity"]
  const OVERFLOW: seq<string> := ["exceeds the context window", "maximum context length", "context_length_exceeded"]
  const OUTPUT_KINDS: seq<string> := ["output_", "function_call", "reasoning", "completed", "incomplete"]
  const FAILURE_TYPES: set<string> := {"error", "response.failed", "failed"}

  // ----- classifying one event -----

  predicate IsOutput(kind: string)
  {
    exists k | 0 <= k < |OUTPUT_KINDS| :: StartsWith(kind, "response." + OUTPUT_KINDS[k])
  }

  /** The last `event:` line, lower-cased, "" when there is none. */
  function EventType(env: Env, lines: seq<string>): string
  {
    if lines == [] then ""
    else
      var last := lines[|lines| - 1];
      if StartsWith(last, "event:") then env.lower(env.trim(last[6..])) else EventType(env, lines[..|lines| - 1])
  }

  /** The `data:` lines, one leading space removed, joined by newlines. */
  function DataLines(lines: seq<string>): seq<string>
  {
    if lines == [] then []
    else
      var line := lines[0];
      var more := DataLines(lines[1..]);
      if !StartsWith(line, "data:") then more
      else [if StartsWith(line[5..], " ") then line[6..] else line[5..]] + more
  }

  function JoinLines(lines: seq<string>): string
  {
    if lines == [] then "" else if |lines| == 1 then lines[0] else lines[0] + "\n" + JoinLines(lines[1..])
  }

  function PayloadType(env: Env, payload: Json): string
  {
    var p := Some(payload);
    match OrElse(OrElse(Get(p, "type"), Get(Get(p, "response"), "status")), Some(JStr("")))
    case Some(JStr(s)) => env.lower(s)
    case Some(v) => env.lower(env.show(v))
    case None => ""
  }

  function ErrorObject(payload: Json): Option<Json>
  {
    var p := Some(payload);
    OrElse(OrElse(Get(Get(p, "response"), "error"), Get(p, "error")), p)
  }

  function TextField(v: Option<Json>, key: string): string
  {
    var field := Get(v, key);
    if IsText(field) then field.value.s else ""
  }

  predicate Fits(code: string, message: string, pattern: string)
  {
    if code != "" then pattern == code else Contains(message, pattern)
  }

  /** `patterns.find(...)`, "" when nothing fits. */
  function Find(code: string, message: string, patterns: seq<string>): (m: string)
    ensures m != "" ==> m in patterns && Fits(code, message, m)
    ensures "" !in patterns ==> (m == "" <==> forall p :: p in patterns ==> !Fits(code, message, p))
  {
    if patterns == [] then ""
    else if Fits(code, message, patterns[0]) then patterns[0]
    else Find(code, message, patterns[1..])
  }

  function ClassifyError(env: Env, payload: Json): Option<Verdict>
  {
    var error := ErrorObject(payload);
    var message := env.trim(TextField(error, "message"));
    var code := env.lower(TextField(error, "code"));
    var context := Find(code, env.lower(message), OVERFLOW);
    var capacity := Find(code, env.lower(message), CAPACITY);
    var transient := Find(code, env.lower(message), TRANSIENT);
    var matched := if context != "" then context else if capacity != "" then capacity else transient;
    if matched == "" then None
    else Some(Failure(matched, if message != "" then message else matched, context != "", capacity != ""))
  }

  function Classify(env: Env, block: string): Option<Verdict>
  {
    var lines := Split(LineEnd, block);
    var eventType := EventType(env, lines);
    match env.parse(JoinLines(DataLines(lines)))
    case None => None
    case Some(payload) =>
      var payloadType := PayloadType(env, payload);
      if IsOutput(eventType) || IsOutput(payloadType) then Some(Output)
      else if eventType !in FAILURE_TYPES && payloadType !in FAILURE_TYPES then None
      else ClassifyError(env, payload)
  }

  // ----- what the peek is meant to find -----

  /** The first event that is output or a recognised failure. */
  function First(env: Env, blocks: seq<string>): Option<Verdict>
  {
    if blocks == [] then None
    else
      var v := Classify(env, blocks[0]);
      if v.Some? then v else First(env, blocks[1..])
  }

  /** Decoder state and text after a run of bytes. */
  function Decoded<S>(dec: TextDecoder<S>, bytes: seq<byte>): (S, string)
  {
    if bytes == [] then (dec.start, "")
    else
      var (st, text) := Decoded(dec, bytes[..|bytes| - 1]);
      var (next, more) := dec.feed(st, bytes[|bytes| - 1]);
      (next, text + more)
  }

  function Clip(bytes: seq<byte>): (c: seq<byte>)
    ensures c <= bytes && |c| <= PEEK_BYTES
    ensures |c| < PEEK_BYTES ==> c == bytes
  {
    if |bytes| <= PEEK_BYTES then bytes else bytes[..PEEK_BYTES]
  }

  /**
   * The events a body shows within the bound, whatever its chunks: those closed by a blank line, and the
   * unclosed rest as well when the body ends properly before the bound.
   */
  function Visible<S>(dec: TextDecoder<S>, body: Body): seq<string>
  {
    var bytes := Concat(body.chunks);
    var (st, text) := Decoded(dec, Clip(bytes));
    if body.intact && |bytes| < PEEK_BYTES then Split(BlankLine, text + dec.flush(st)) else Closed(BlankLine, text)
  }

  // ----- the loops -----

  /** `decoder.decode(chunk, { stream: true })` */
  method DecodeChunk<S>(dec: TextDecoder<S>, st: S, chunk: seq<byte>, ghost before: seq<byte>)
    returns (next: S, more: string)
    requires st == Decoded(dec, before).0
    ensures Decoded(dec, before + chunk) == (next, Decoded(dec, before).1 + more)
  {
    next, more := st, "";
    assert before + chunk[..0] == before && Decoded(dec, before).1 + "" == Decoded(dec, before).1;
    for i := 0 to |chunk|
      invariant Decoded(dec, before + chunk[..i]) == (next, Decoded(dec, before).1 + more)
    {
      var (s, t) := dec.feed(next, chunk[i]);
      assert (before + chunk[..i + 1])[..|before| + i] == before + chunk[..i];
      assert Decoded(dec, before).1 + (more + t) == Decoded(dec, before).1 + more + t;
      next, more := s, more + t;
    }
    assert chunk[..|chunk|] == chunk;
  }

  method FirstVerdict(env: Env, blocks: seq<string>) returns (verdict: Option<Verdict>)
    ensures verdict == First(env, blocks)
  {
    verdict := None;
    for i := 0 to |blocks|
      invariant verdict == None && First(env, blocks) == First(env, blocks[i..])
    {
      verdict := Classify(env, blocks[i]);
      assert blocks[i..][1..] == blocks[i + 1..];
      if verdict.Some? {
        break;
      }
    }
  }

  lemma {:induction false} FirstAppend(env: Env, a: seq<string>, b: seq<string>)
    ensures First(env, a + b) == if First(env, a).Some? then First(env, a) else First(env, b)
  {
    hide Classify;
    if a == [] {
      assert a + b == b;
    } else {
      assert (a + b)[1..] == a[1..] + b;
      FirstAppend(env, a[1..], b);
    }
  }

  lemma {:induction false} ConcatPrefix<T>(parts: seq<seq<T>>, k: nat)
    requires k <= |parts|
    ensures Concat(parts[..k]) <= Concat(parts)
  {
    ConcatAppend(parts[..k], parts[k..]);
    assert parts[..k] + parts[k..] == parts;
  }

  lemma {:induction false} DecodedGrows<S>(dec: TextDecoder<S>, a: seq<byte>, b: seq<byte>)
    requires a <= b
    ensures Decoded(dec, a).1 <= Decoded(dec, b).1
    decreases |b|
  {
    if a != b {
      DecodedGrows(dec, a, b[..|b| - 1]);
    }
  }

  lemma ClosedGrows(a: string, b: string)
    requires a <= b
    ensures Closed(BlankLine, a) <= Closed(BlankLine, b)
  {
    SplitAppend(BlankLine, a, b[|a|..]);
    assert a + b[|a|..] == b;
  }

  /** What was closed after some of the chunks is at the front of what the whole body shows. */
  lemma SeenIsVisible<S>(dec: TextDecoder<S>, body: Body, k: nat)
    requires k <= |body.chunks|
    ensures Closed(BlankLine, Decoded(dec, Clip(Concat(body.chunks[..k]))).1) <= Visible(dec, body)
  {
    hide Split, Decoded;
    var seen, bytes := Clip(Concat(body.chunks[..k])), Concat(body.chunks);
    ConcatPrefix(body.chunks, k);
    DecodedGrows(dec, seen, Clip(bytes));
    var (st, text) := Decoded(dec, Clip(bytes));
    ClosedGrows(Decoded(dec, seen).1, text);
    ClosedGrows(text, text + dec.flush(st));
  }

  /** The peek has read `k` chunks and gone through what they close. */
  ghost predicate Reading<S>(env: Env, dec: TextDecoder<S>, body: Body, k: nat, st: S, pending: string, bytesRead: nat)
  {
    && k <= |body.chunks|
    && var seen := Clip(Concat(body.chunks[..k]));
    && bytesRead == |seen|
    && st == Decoded(dec, seen).0
    && pending == Unclosed(BlankLine, Decoded(dec, seen).1)
    && First(env, Closed(BlankLine, Decoded(dec, seen).1)) == None
  }

  lemma TakeClip(a: seq<byte>, value: seq<byte>, inspected: seq<byte>)
    requires |a| < PEEK_BYTES
    requires inspected == if |value| <= PEEK_BYTES - |a| then value else value[..PEEK_BYTES - |a|]
    ensures Clip(a) == a && Clip(a + value) == a + inspected
  {
  }

  lemma ConcatLast(chunks: seq<seq<byte>>, k: nat)
    requires k < |chunks|
    ensures Concat(chunks[..k + 1]) == Concat(chunks[..k]) + chunks[k]
  {
    assert chunks[..k + 1] == chunks[..k] + [chunks[k]];
    ConcatAppend(chunks[..k], [chunks[k]]);
    assert Concat([chunks[k]]) == chunks[k] + Concat([]);
  }

  /** Text `more` arrived after `text`: going through the carried part plus `more` is going through it all. */
  lemma CarryOver(env: Env, text: string, more: string)
    requires First(env, Closed(BlankLine, text)) == None
    ensures var carried := Unclosed(BlankLine, text) + more;
            && First(env, Split(BlankLine, text + more)) == First(env, Split(BlankLine, carried))
            && First(env, Closed(BlankLine, text + more)) == First(env, Closed(BlankLine, carried))
            && Unclosed(BlankLine, text + more) == Unclosed(BlankLine, carried)
  {
    hide First, Split;
    var carried := Unclosed(BlankLine, text) + more;
    SplitAppend(BlankLine, text, more);
    FirstAppend(env, Closed(BlankLine, text), Split(BlankLine, carried));
    FirstAppend(env, Closed(BlankLine, text), Closed(BlankLine, carried));
    assert Closed(BlankLine, text + more) == Closed(BlankLine, text) + Closed(BlankLine, carried);
  }

  lemma BoundReached<S>(env: Env, dec: TextDecoder<S>, body: Body, k: nat, st: S, pending: string, bytesRead: nat)
    requires Reading(env, dec, body, k, st, pending, bytesRead) && bytesRead == PEEK_BYTES
    ensures First(env, Visible(dec, body)) == None
  {
    ConcatPrefix(body.chunks, k);
    assert Clip(Concat(body.chunks)) == Clip(Concat(body.chunks[..k]));
  }

  lemma AtMost<S>(env: Env, dec: TextDecoder<S>, body: Body, k: nat, st: S, pending: string, bytesRead: nat)
    requires Reading(env, dec, body, k, st, pending, bytesRead)
    ensures bytesRead <= PEEK_BYTES
  {
  }

  lemma Begin<S>(env: Env, dec: TextDecoder<S>, body: Body)
    ensures Reading(env, dec, body, 0, dec.start, "", 0)
  {
    assert body.chunks[..0] == [];
    assert Split(BlankLine, "") == [""];
  }

  lemma Broken<S>(env: Env, dec: TextDecoder<S>, body: Body, st: S, pending: string, bytesRead: nat)
    requires Reading(env, dec, body, |body.chunks|, st, pending, bytesRead) && !body.intact
    ensures First(env, Visible(dec, body)) == None
  {
    assert body.chunks[..|body.chunks|] == body.chunks;
  }

  /** One chunk arrives: decode it, close what it closes, look for a verdict and keep the rest. */
  method Inspect<S>(env: Env, dec: TextDecoder<S>, body: Body, k: nat, st: S, pending: string, bytesRead: nat,
      inspected: seq<byte>)
    returns (next: S, carried: string, verdict: Option<Verdict>)
    requires k < |body.chunks| && bytesRead < PEEK_BYTES
    requires Reading(env, dec, body, k, st, pending, bytesRead)
    requires var value, remaining := body.chunks[k], PEEK_BYTES - bytesRead;
             inspected == if |value| <= remaining then value else value[..remaining]
    ensures verdict == None ==> Reading(env, dec, body, k + 1, next, carried, bytesRead + |inspected|)
    ensures verdict != None ==> verdict == First(env, Visible(dec, body))
  {
    hide Decoded, First, Split, Clip, Visible;
    ghost var seen := Clip(Concat(body.chunks[..k]));
    ghost var all := Concat(body.chunks[..k]);
    assert seen == all by { hide *; ClipShort(all); }
    ConcatLast(body.chunks, k);
    TakeClip(all, body.chunks[k], inspected);
    var more;
    next, more := DecodeChunk(dec, st, inspected, seen);
    CarryOver(env, Decoded(dec, seen).1, more);
    var blocks := Split(BlankLine, pending + more);
    carried := blocks[|blocks| - 1];
    verdict := FirstVerdict(env, blocks[..|blocks| - 1]);
    if verdict != None {
      SeenIsVisible(dec, body, k + 1);
      var closed := Closed(BlankLine, Decoded(dec, seen + inspected).1);
      FirstAppend(env, closed, Visible(dec, body)[|closed|..]);
      assert closed + Visible(dec, body)[|closed|..] == Visible(dec, body);
    }
  }

  lemma ClipShort(a: seq<byte>)
    requires |Clip(a)| < PEEK_BYTES
    ensures Clip(a) == a
  {
  }

  /** The body ended: the decoder is flushed and the unclosed rest is an event too. */
  method AtEnd<S>(env: Env, dec: TextDecoder<S>, body: Body, st: S, pending: string, bytesRead: nat)
    returns (verdict: Option<Verdict>)
    requires body.intact && bytesRead < PEEK_BYTES
    requires Reading(env, dec, body, |body.chunks|, st, pending, bytesRead)
    ensures verdict == First(env, Visible(dec, body))
  {
    hide Decoded, First, Split;
    assert body.chunks[..|body.chunks|] == body.chunks;
    CarryOver(env, Decoded(dec, Concat(body.chunks)).1, dec.flush(st));
    verdict := FirstVerdict(env, Split(BlankLine, pending + dec.flush(st)));
  }

  /**
   * Look ahead. The verdict is that of the first decisive visible event for every chunking, with or without
   * a read error, and unless it is a failure the caller gets the upstream body back: same chunks, same end.
   */
  method Peek<S>(env: Env, dec: TextDecoder<S>, body: Body)
    returns (verdict: Option<Verdict>, replacement: Option<Body>)
    ensures verdict == First(env, Visible(dec, body))
    ensures replacement == if verdict.Some? && verdict.value.Failure? then None else Some(body)
  {
    hide Decoded, First, Split, Closed, Unclosed, Clip;
    var chunks: seq<seq<byte>>, pending, st := [], "", dec.start;
    var bytesRead: nat := 0;
    var reading := true;
    verdict := None;
    Begin(env, dec, body);
    while reading && bytesRead < PEEK_BYTES
      invariant |chunks| <= |body.chunks| && chunks == body.chunks[..|chunks|]
      invariant reading ==> verdict == None && Reading(env, dec, body, |chunks|, st, pending, bytesRead)
      invariant !reading ==> verdict == First(env, Visible(dec, body))
      decreases reading, |body.chunks| - |chunks|
    {
      var k := |chunks|;
      if k < |body.chunks| {
        var value := body.chunks[k];
        var remaining := PEEK_BYTES - bytesRead;
        var inspected := if |value| <= remaining then value else value[..remaining];
        st, pending, verdict := Inspect(env, dec, body, k, st, pending, bytesRead, inspected);
        chunks := chunks + [value];
        bytesRead := bytesRead + |inspected|;
        reading := verdict == None;
      } else if body.intact {
        verdict := AtEnd(env, dec, body, st, pending, bytesRead);
        reading := false;
      } else {
        Broken(env, dec, body, st, pending, bytesRead);
        reading := false;
      }
    }
    if reading {
      AtMost(env, dec, body, |chunks|, st, pending, bytesRead);
      BoundReached(env, dec, body, |chunks|, st, pending, bytesRead);
    }
    if verdict.Some? && verdict.value.Failure? {
      replacement := None;
    } else {
      assert chunks + body.chunks[|chunks|..] == body.chunks;
      replacement := Some(Body(chunks + body.chunks[|chunks|..], body.intact));
    }
  }

  // ----- what the verdict means -----

  /** The verdict is the classification of the first decisive event, and there is none exactly when no event decides. */
  lemma {:induction false} FirstDecides(env: Env, blocks: seq<string>)
    ensures First(env, blocks) == None <==> forall i :: 0 <= i < |blocks| ==> Classify(env, blocks[i]) == None
    ensures First(env, blocks).Some? ==> exists k :: 0 <= k < |blocks| && First(env, blocks) == Classify(env, blocks[k])
                                           && forall i :: 0 <= i < k ==> Classify(env, blocks[i]) == None
  {
    hide Classify;
    if blocks != [] {
      var tail := blocks[1..];
      FirstDecides(env, tail);
      assert forall i :: 0 < i < |blocks| ==> blocks[i] == tail[i - 1];
      if Classify(env, blocks[0]) == None {
        if First(env, tail).Some? {
          var k :| 0 <= k < |tail| && First(env, tail) == Classify(env, tail[k])
                   && forall i :: 0 <= i < k ==> Classify(env, tail[i]) == None;
          assert Classify(env, blocks[k + 1]) == First(env, blocks);
        } else {
          forall i | 0 <= i < |blocks| ensures Classify(env, blocks[i]) == None {
            assert i > 0 ==> Classify(env, tail[i - 1]) == None;
          }
        }
      } else {
        assert Classify(env, blocks[0]).Some?;
      }
    }
  }

  /** A failure that some output event precedes is never surfaced. */
  lemma OutputShieldsLaterFailures<S>(env: Env, dec: TextDecoder<S>, body: Body, i: nat)
    requires i < |Visible(dec, body)| && Classify(env, Visible(dec, body)[i]) == Some(Output)
    requires forall j :: 0 <= j < i ==>
             !(Classify(env, Visible(dec, body)[j]).Some? && Classify(env, Visible(dec, body)[j]).value.Failure?)
    ensures First(env, Visible(dec, body)) == Some(Output)
  {
    hide Classify, Visible;
    var blocks := Visible(dec, body);
    FirstDecides(env, blocks);
    assert Classify(env, blocks[i]) != None;
    var k :| 0 <= k < |blocks| && First(env, blocks) == Classify(env, blocks[k])
             && forall j :: 0 <= j < k ==> Classify(env, blocks[j]) == None;
  }

  /** What a failure is told by: lower-cased code and message of the error object. */
  function ErrorCode(env: Env, payload: Json): string
  {
    env.lower(TextField(ErrorObject(payload), "code"))
  }

  function ErrorMessage(env: Env, payload: Json): string
  {
    env.lower(env.trim(TextField(ErrorObject(payload), "message")))
  }

  /** The event is no output, its type is a failure type, and some pattern fits its error object. */
  predicate Announces(env: Env, block: string)
  {
    var lines := Split(LineEnd, block);
    var payload := env.parse(JoinLines(DataLines(lines)));
    && payload.Some?
    && !IsOutput(EventType(env, lines)) && !IsOutput(PayloadType(env, payload.value))
    && (EventType(env, lines) in FAILURE_TYPES || PayloadType(env, payload.value) in FAILURE_TYPES)
    && var code, message := ErrorCode(env, payload.value), ErrorMessage(env, payload.value);
    && exists p :: p in OVERFLOW + CAPACITY + TRANSIENT && Fits(code, message, p)
  }

  lemma NoEmptyPattern()
    ensures "" !in OVERFLOW && "" !in CAPACITY && "" !in TRANSIENT
  {
  }

  lemma ClassifyErrorIff(env: Env, payload: Json)
    ensures var code, message := ErrorCode(env, payload), ErrorMessage(env, payload);
            var v := ClassifyError(env, payload);
            && (v.Some? <==> exists p :: p in OVERFLOW + CAPACITY + TRANSIENT && Fits(code, message, p))
            && (v.Some? ==>
                  && v.value.Failure? && v.value.matched in OVERFLOW + CAPACITY + TRANSIENT
                  && Fits(code, message, v.value.matched)
                  && (v.value.contextOverflow <==> exists p :: p in OVERFLOW && Fits(code, message, p))
                  && (v.value.accountFallback <==> exists p :: p in CAPACITY && Fits(code, message, p)))
  {
    hide Fits, TextField, ErrorObject, OVERFLOW, CAPACITY, TRANSIENT;
    NoEmptyPattern();
    var code, message := ErrorCode(env, payload), ErrorMessage(env, payload);
    var context, capacity, transient := Find(code, message, OVERFLOW), Find(code, message, CAPACITY),
      Find(code, message, TRANSIENT);
    if ClassifyError(env, payload).Some? {
      assert ClassifyError(env, payload).value.matched in [context, capacity, transient];
    } else {
      assert context == "" && capacity == "" && transient == "";
    }
  }

  /**
   * An event is called a failure exactly when it announces one, and the flags tell exactly which lists of
   * patterns fit: words in content or tool arguments play no part.
   */
  lemma FailureIffAnnounced(env: Env, block: string)
    ensures var c := Classify(env, block); c.Some? && c.value.Failure? <==> Announces(env, block)
    ensures Announces(env, block) ==>
              var payload := env.parse(JoinLines(DataLines(Split(LineEnd, block)))).value;
              var code, message, v := ErrorCode(env, payload), ErrorMessage(env, payload), Classify(env, block).value;
              && v.Failure? && v.matched in OVERFLOW + CAPACITY + TRANSIENT && Fits(code, message, v.matched)
              && (v.contextOverflow <==> exists p :: p in OVERFLOW && Fits(code, message, p))
              && (v.accountFallback <==> exists p :: p in CAPACITY && Fits(code, message, p))
  {
    hide Fits, Split, DataLines, JoinLines, EventType, PayloadType, IsOutput, ClassifyError, OVERFLOW, CAPACITY,
      TRANSIENT, ErrorCode, ErrorMessage;
    var payload := env.parse(JoinLines(DataLines(Split(LineEnd, block))));
    if payload.Some? {
      ClassifyErrorIff(env, payload.value);
    }
  }

  // ----- written events are read back -----

  function EventBlock(kind: string, data: string): string
  {
    "event: " + kind + "\n" + ("data: " + data)
  }

  /** An event written on two lines is read with its type and its data. */
  lemma EventBlockReads(env: Env, kind: string, data: string)
    requires '\n' !in kind && '\n' !in data && (kind != "" ==> kind[|kind| - 1] != '\r')
    ensures var lines := Split(LineEnd, EventBlock(kind, data));
            EventType(env, lines) == env.lower(env.trim(" " + kind)) && JoinLines(DataLines(lines)) == data
  {
    hide Split;
    var first, second := "event: " + kind, "data: " + data;
    assert first[|first| - 1] == if kind == "" then ' ' else kind[|kind| - 1];
    assert '\n' !in first && '\n' !in second by { NoNewline(kind, data); }
    LineComesOff(first, second);
    LastLine(second);
    var lines := [first, second];
    assert Split(LineEnd, EventBlock(kind, data)) == lines by { assert [first] + [second] == lines; }
    TypeOfTwo(env, kind, data);
    DataOfTwo(kind, data);
  }

  lemma NoNewline(kind: string, data: string)
    requires '\n' !in kind && '\n' !in data
    ensures '\n' !in "event: " + kind && '\n' !in "data: " + data
  {
  }

  lemma TypeOfTwo(env: Env, kind: string, data: string)
    ensures EventType(env, ["event: " + kind, "data: " + data]) == env.lower(env.trim(" " + kind))
  {
    var first, second := "event: " + kind, "data: " + data;
    var lines := [first, second];
    assert second[0] == 'd' && "event:"[0] == 'e';
    assert !StartsWith(second, "event:");
    assert lines[..1] == [first];
    assert first[..6] == "event:" && first[6..] == " " + kind;
  }

  lemma DataOfTwo(kind: string, data: string)
    ensures JoinLines(DataLines(["event: " + kind, "data: " + data])) == data
  {
    var first, second := "event: " + kind, "data: " + data;
    var lines := [first, second];
    assert first[0] == 'e' && "data:"[0] == 'd';
    assert !StartsWith(first, "data:");
    var one: seq<string> := [second];
    assert lines[1..] == one && one[1..] == [];
    assert second[..5] == "data:" && second[5..][..1] == " " && second[6..] == data;
    assert DataLines(one) == [data];
  }

  /** An event with an output type is output, whatever its data say, as long as they are JSON. */
  lemma OutputIsSeen(env: Env, kind: string, data: string, suffix: string)
    requires '\n' !in kind && '\n' !in data && (kind != "" ==> kind[|kind| - 1] != '\r') && env.parse(data).Some?
    requires var t := env.lower(env.trim(" " + kind));
             || t == "response.output_" + suffix || t == "response.function_call" + suffix
             || t == "response.reasoning" + suffix || t == "response.completed" + suffix
             || t == "response.incomplete" + suffix
    ensures Classify(env, EventBlock(kind, data)) == Some(Output)
  {
    hide Split, DataLines, JoinLines, PayloadType, ClassifyError, EventBlock, EventType;
    EventBlockReads(env, kind, data);
    IsOutputPrefix(env.lower(env.trim(" " + kind)), suffix);
  }

  lemma IsOutputPrefix(t: string, suffix: string)
    requires || t == "response.output_" + suffix || t == "response.function_call" + suffix
             || t == "response.reasoning" + suffix || t == "response.completed" + suffix
             || t == "response.incomplete" + suffix
    ensures IsOutput(t)
  {
    assert "response." + OUTPUT_KINDS[0] == "response.output_"
      && "response." + OUTPUT_KINDS[1] == "response.function_call";
    assert "response." + OUTPUT_KINDS[2] == "response.reasoning"
      && "response." + OUTPUT_KINDS[3] == "response.completed";
    assert "response." + OUTPUT_KINDS[4] == "response.incomplete";
    var k := if t == "response.output_" + suffix then 0
             else if t == "response.function_call" + suffix then 1
             else if t == "response.reasoning" + suffix then 2
             else if t == "response.completed" + suffix then 3
             else 4;
    assert StartsWith(t, "response." + OUTPUT_KINDS[k]);
  }
}
