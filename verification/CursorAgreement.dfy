/** The two Cursor decoders agree, and exactly when their tool calls do. */
module CursorAgreement {
  import opened Bytes
  import opened CursorDecoders

  // ----- what a client reads from the SSE chunks -----

  function TextOf(chunks: seq<Chunk>): string
  {
    if chunks == [] then ""
    else TextOf(chunks[..|chunks| - 1]) + (if chunks[|chunks| - 1].Text? then chunks[|chunks| - 1].text else "")
  }

  /** A delta with a new index opens a call; later deltas of that index add argument text. */
  function Apply(calls: seq<Call>, c: Chunk): seq<Call>
  {
    if !c.ToolDelta? then calls
    else if c.index < |calls|
      then calls[c.index := calls[c.index].(arguments := calls[c.index].arguments + c.arguments)]
    else calls + [Call(c.id, c.name, c.arguments)]
  }

  function CallsOf(chunks: seq<Chunk>): seq<Call>
  {
    if chunks == [] then [] else Apply(CallsOf(chunks[..|chunks| - 1]), chunks[|chunks| - 1])
  }

  lemma Snoc(chunks: seq<Chunk>, c: Chunk)
    ensures TextOf(chunks + [c]) == TextOf(chunks) + (if c.Text? then c.text else "")
    ensures CallsOf(chunks + [c]) == Apply(CallsOf(chunks), c)
  {
    assert (chunks + [c])[..|chunks|] == chunks;
  }

  /** The SSE state carries in its chunks what it keeps in its variables. */
  predicate Mirrors(s: SseState)
  {
    && TextOf(s.chunks) == s.content
    && CallsOf(s.chunks) == s.calls
    && (s.chunks == [] <==> s.content == "" && s.calls == [])
  }

  lemma ToolMirrors(s: SseState, f: Fragment)
    requires Mirrors(s)
    ensures Mirrors(SseTool(s, f))
  {
    hide TextOf, CallsOf;
    var chunks := if s.chunks == [] then [Role] else s.chunks;
    assert TextOf(chunks) == s.content && CallsOf(chunks) == s.calls by {
      EmptyChunks();
      Snoc([], Role);
      assert [] + [Role] == [Role];
    }
    match Find(s.calls, f.id)
    case None => Snoc(chunks, ToolDelta(|s.calls|, f.id, f.name, f.arguments));
    case Some(k) =>
      Snoc(chunks, ToolDelta(k, f.id, f.name, f.arguments));
      if f.arguments == "" {
        assert s.calls[k].arguments + "" == s.calls[k].arguments;
        assert s.calls[k := s.calls[k]] == s.calls;
      }
  }

  lemma EmptyChunks()
    ensures TextOf([]) == "" && CallsOf([]) == []
  {
  }

  lemma TextMirrors(s: SseState, text: string)
    requires Mirrors(s)
    ensures Mirrors(SseText(s, text))
  {
    hide TextOf, CallsOf;
    if text != "" {
      Snoc(s.chunks, Text(s.chunks == [] && s.calls == [], text));
    }
  }

  // ----- the two runs side by side -----

  /** Same text, same map, and the SSE chunks mirror them. */
  predicate Paired(j: JsonState, s: SseState)
  {
    Mirrors(s) && j.content == s.content && j.calls == s.calls
  }

  predicate PairedOutcomes(x: Outcome<JsonState>, y: Outcome<SseState>)
  {
    match (x, y)
    case (Going(j), Going(s)) => Paired(j, s)
    case (Broke(j), Broke(s)) => Paired(j, s)
    case (Replied(p), Replied(q)) => p == q
    case _ => false
  }

  lemma StepsPair(e: Env, j: JsonState, s: SseState, payload: seq<byte>)
    requires Paired(j, s)
    ensures PairedOutcomes(JsonStep(e, j, payload), SseStep(e, s, payload))
  {
    hide TextOf, CallsOf, Accumulate, Find;
    match Meet(e, j.content != "" || j.calls != [], payload)
    case Ends =>
    case Answers(_) =>
    case Decodes(x) =>
      var s' := if x.tool.Some? then SseTool(s, x.tool.value) else s;
      if x.tool.Some? {
        ToolMirrors(s, x.tool.value);
        ToolKeeps(j, s, x.tool.value);
      }
      TextMirrors(s', x.text);
      assert x.text == "" ==> j.content + x.text == j.content;
  }

  lemma ToolKeeps(j: JsonState, s: SseState, f: Fragment)
    requires j.content == s.content && j.calls == s.calls
    ensures JsonTool(j, f).content == SseTool(s, f).content && JsonTool(j, f).calls == SseTool(s, f).calls
  {
  }

  lemma {:induction false} RunsPair(e: Env, j: JsonState, s: SseState, ps: seq<seq<byte>>)
    requires Paired(j, s)
    ensures PairedOutcomes(JsonRun(e, j, ps), SseRun(e, s, ps))
    decreases |ps|
  {
    hide Paired, JsonStep, SseStep;
    if ps != [] {
      StepsPair(e, j, s, ps[0]);
      if JsonStep(e, j, ps[0]).Going? {
        RunsPair(e, JsonStep(e, j, ps[0]).state, SseStep(e, s, ps[0]).state, ps[1..]);
      }
    }
  }

  // ----- finalized calls -----

  predicate DistinctIds(calls: seq<Call>)
  {
    forall i, k :: 0 <= i < k < |calls| ==> calls[i].id != calls[k].id
  }

  /** The same calls, one per id, in whatever order. */
  ghost predicate SameCalls(a: seq<Call>, b: seq<Call>)
  {
    DistinctIds(a) && DistinctIds(b) && forall c :: c in a <==> c in b
  }

  /** Every finalized call is still the current one of its id, and no id was finalized twice. */
  ghost predicate Settled(calls: seq<Call>, finals: seq<Call>)
  {
    DistinctIds(finals) && forall c :: c in finals ==> c in calls
  }

  /** A finalized call is an earlier stage of the current one. */
  predicate Earlier(c: Call, calls: seq<Call>)
  {
    var k := Find(calls, c.id);
    k.Some? && c.arguments <= calls[k.value].arguments && c.name == calls[k.value].name
  }

  ghost predicate Consistent(calls: seq<Call>, finals: seq<Call>)
  {
    DistinctIds(calls) && forall c :: c in finals ==> Earlier(c, calls)
  }

  lemma FindUnique(calls: seq<Call>, k: nat)
    requires DistinctIds(calls) && k < |calls|
    ensures Find(calls, calls[k].id) == Some(k)
  {
  }

  lemma {:induction false} UnfinishedFacts(calls: seq<Call>, finals: seq<Call>)
    requires DistinctIds(calls)
    ensures DistinctIds(Unfinished(calls, finals))
    ensures forall c :: c in Unfinished(calls, finals) <==> c in calls && Find(finals, c.id).None?
  {
    if calls != [] {
      UnfinishedFacts(calls[1..], finals);
      var u := Unfinished(calls[1..], finals);
      assert forall c :: c in calls <==> c == calls[0] || c in calls[1..];
      forall i | 0 <= i < |u| ensures u[i].id != calls[0].id {
        assert u[i] in u;
        var m :| 0 <= m < |calls[1..]| && calls[1..][m] == u[i];
        assert calls[m + 1] == u[i];
      }
    }
  }

  lemma FindIn(calls: seq<Call>, c: Call)
    requires c in calls
    ensures Find(calls, c.id).Some?
  {
    var i :| 0 <= i < |calls| && calls[i] == c;
  }

  lemma SettledGivesSame(calls: seq<Call>, finals: seq<Call>)
    requires Consistent(calls, finals) && Settled(calls, finals)
    ensures SameCalls(finals + Unfinished(calls, finals), calls)
  {
    hide Find;
    var u := Unfinished(calls, finals);
    var all := finals + u;
    UnfinishedFacts(calls, finals);
    forall i, k | 0 <= i < k < |all| ensures all[i].id != all[k].id {
      if i < |finals| <= k {
        assert finals[i] in finals && u[k - |finals|] in u;
        FindIn(finals, finals[i]);
      }
    }
    forall c | c in calls ensures c in all {
      if Find(finals, c.id).Some? {
        var f := finals[Find(finals, c.id).value];
        assert f in finals && f in calls;
        SameIdSameCall(calls, c, f);
      } else {
        assert c in u;
      }
    }
  }

  lemma SameIdSameCall(calls: seq<Call>, c: Call, d: Call)
    requires DistinctIds(calls) && c in calls && d in calls && c.id == d.id
    ensures c == d
  {
    var i :| 0 <= i < |calls| && calls[i] == c;
    var k :| 0 <= k < |calls| && calls[k] == d;
    assert !(i < k) && !(k < i);
  }

  lemma SameGivesSettled(calls: seq<Call>, finals: seq<Call>)
    requires SameCalls(finals + Unfinished(calls, finals), calls)
    ensures Settled(calls, finals)
  {
    hide Find, Unfinished;
    var all := finals + Unfinished(calls, finals);
    forall i, k | 0 <= i < k < |finals| ensures finals[i].id != finals[k].id {
      assert all[i] == finals[i] && all[k] == finals[k];
    }
    forall c | c in finals ensures c in calls {
      assert c in all;
    }
  }

  // ----- one fragment at a time -----

  datatype Tools = Tools(calls: seq<Call>, finals: seq<Call>)

  function Put(t: Tools, f: Fragment): Tools
  {
    var s := JsonTool(JsonState("", t.calls, t.finals), f);
    Tools(s.calls, s.finals)
  }

  function After(fs: seq<Fragment>): Tools
  {
    if fs == [] then Tools([], []) else Put(After(fs[..|fs| - 1]), fs[|fs| - 1])
  }

  /** After a fragment marked last, its id gets nothing more: no second mark and no more arguments. */
  ghost predicate Quiet(fs: seq<Fragment>)
  {
    forall i, k :: 0 <= i < k < |fs| && fs[i].id == fs[k].id && fs[i].isLast ==> !fs[k].isLast && fs[k].arguments == ""
  }

  predicate Harmless(t: Tools, f: Fragment)
  {
    Find(t.finals, f.id).None? || (!f.isLast && f.arguments == "")
  }

  /** The call of `id` under construction. */
  function Current(calls: seq<Call>, id: string): Option<Call>
  {
    match Find(calls, id)
    case None => None
    case Some(k) => Some(calls[k])
  }

  lemma CurrentIn(calls: seq<Call>, c: Call)
    requires DistinctIds(calls)
    ensures c in calls <==> Current(calls, c.id) == Some(c)
  {
    hide Find;
    if c in calls {
      var i :| 0 <= i < |calls| && calls[i] == c;
      FindUnique(calls, i);
    }
  }

  /** A fragment changes the call of its own id and no other. */
  lemma AccumulateFacts(calls: seq<Call>, f: Fragment)
    requires DistinctIds(calls)
    ensures var a := Accumulate(calls, f);
            && DistinctIds(a)
            && (forall id :: id != f.id ==> Current(a, id) == Current(calls, id))
            && Current(a, f.id) == match Current(calls, f.id)
                                   case None => Some(Call(f.id, f.name, f.arguments))
                                   case Some(c) => Some(c.(arguments := c.arguments + f.arguments))
  {
    hide Find;
    var a := Accumulate(calls, f);
    var k := match Find(calls, f.id) case None => |calls| case Some(m) => m;
    assert a[k].id == f.id;
    assert DistinctIds(a);
    FindUnique(a, k);
    forall id | id != f.id ensures Current(a, id) == Current(calls, id) {
      match Find(calls, id) {
        case Some(m) =>
          assert a[m] == calls[m];
          FindUnique(a, m);
        case None =>
          assert forall m :: 0 <= m < |a| ==> a[m].id != id;
      }
    }
  }

  lemma PutConsistent(t: Tools, f: Fragment)
    requires Consistent(t.calls, t.finals)
    ensures var p := Put(t, f); Consistent(p.calls, p.finals)
    ensures var p := Put(t, f);
            Current(p.calls, f.id).Some?
              && p.finals == if f.isLast then t.finals + [Current(p.calls, f.id).value] else t.finals
  {
    hide Find, Accumulate;
    AccumulateFacts(t.calls, f);
    var p := Put(t, f);
    forall c | c in p.finals ensures Earlier(c, p.calls) {
      if c in t.finals {
        assert Earlier(c, t.calls);
        assert Current(t.calls, c.id).Some?;
        if c.id == f.id {
          var now := Current(t.calls, f.id).value;
          assert now.arguments <= now.arguments + f.arguments;
        } else {
          assert Current(p.calls, c.id) == Current(t.calls, c.id);
        }
      }
    }
  }

  /** Being settled survives exactly the harmless fragments, and is never regained. */
  lemma SettledStep(t: Tools, f: Fragment)
    requires Consistent(t.calls, t.finals)
    ensures var p := Put(t, f);
            Settled(p.calls, p.finals) <==> Settled(t.calls, t.finals) && Harmless(t, f)
  {
    hide Find, Accumulate;
    var p := Put(t, f);
    AccumulateFacts(t.calls, f);
    PutConsistent(t, f);
    if Settled(t.calls, t.finals) && Harmless(t, f) {
      StaysSettled(t, f);
    }
    if Settled(p.calls, p.finals) {
      WasSettled(t, f);
    }
  }

  lemma StaysSettled(t: Tools, f: Fragment)
    requires Consistent(t.calls, t.finals) && Settled(t.calls, t.finals) && Harmless(t, f)
    ensures var p := Put(t, f); Settled(p.calls, p.finals)
  {
    hide Find, Accumulate;
    var p := Put(t, f);
    AccumulateFacts(t.calls, f);
    PutConsistent(t, f);
    forall c | c in p.finals ensures c in p.calls {
      CurrentIn(t.calls, c);
      CurrentIn(p.calls, c);
      if c in t.finals && c.id == f.id {
        FindIn(t.finals, c);
        assert c.arguments + "" == c.arguments;
      }
    }
    forall i, k | 0 <= i < k < |p.finals| ensures p.finals[i].id != p.finals[k].id {
      if k == |t.finals| {
        assert t.finals[i] in t.finals;
        FindIn(t.finals, t.finals[i]);
      }
    }
  }

  lemma WasSettled(t: Tools, f: Fragment)
    requires Consistent(t.calls, t.finals)
    requires var p := Put(t, f); Settled(p.calls, p.finals)
    ensures Settled(t.calls, t.finals) && Harmless(t, f)
  {
    hide Find, Accumulate;
    var p := Put(t, f);
    AccumulateFacts(t.calls, f);
    PutConsistent(t, f);
    assert forall i :: 0 <= i < |t.finals| ==> p.finals[i] == t.finals[i];
    assert DistinctIds(t.finals);
    forall c | c in t.finals ensures c in t.calls {
      assert c in p.finals;
      CurrentIn(t.calls, c);
      CurrentIn(p.calls, c);
      assert Earlier(c, t.calls);
      if c.id == f.id {
        StillCurrent(c, Current(t.calls, c.id).value, f);
      }
    }
    if Find(t.finals, f.id).Some? {
      var k := Find(t.finals, f.id).value;
      var c := t.finals[k];
      assert c in t.finals && c in t.calls && c in p.finals;
      CurrentIn(t.calls, c);
      CurrentIn(p.calls, c);
      StillCurrent(c, c, f);
      PushingRepeats(t.finals, k, Current(p.calls, f.id).value);
    }
  }

  lemma PushingRepeats(finals: seq<Call>, k: nat, x: Call)
    requires k < |finals| && finals[k].id == x.id
    ensures !DistinctIds(finals + [x])
  {
    assert (finals + [x])[k] == finals[k] && (finals + [x])[|finals|] == x;
  }

  /** An earlier stage that equals the extended call leaves no room for an extension. */
  lemma StillCurrent(c: Call, now: Call, f: Fragment)
    requires c.id == now.id && c.name == now.name && c.arguments <= now.arguments
    requires c == now.(arguments := now.arguments + f.arguments)
    ensures c == now && f.arguments == ""
  {
    assert |c.arguments| == |now.arguments| + |f.arguments|;
  }

  lemma {:induction false} FinalIds(fs: seq<Fragment>, id: string)
    ensures Consistent(After(fs).calls, After(fs).finals)
    ensures Find(After(fs).finals, id).Some? <==> exists i :: 0 <= i < |fs| && fs[i].id == id && fs[i].isLast
  {
    hide Find, Accumulate;
    if fs != [] {
      var n := |fs| - 1;
      var before, f := fs[..n], fs[n];
      FinalIds(before, id);
      PutConsistent(After(before), f);
      AccumulateFacts(After(before).calls, f);
      var p, t := After(fs), After(before);
      if Find(t.finals, id).Some? {
        assert p.finals[Find(t.finals, id).value].id == id;
        var i :| 0 <= i < |before| && before[i].id == id && before[i].isLast;
        assert fs[i] == before[i];
      }
      if f.isLast && f.id == id {
        assert p.finals[|t.finals|].id == id;
        assert fs[n].id == id;
      }
      if exists i :: 0 <= i < |fs| && fs[i].id == id && fs[i].isLast {
        var i :| 0 <= i < |fs| && fs[i].id == id && fs[i].isLast;
        assert i < n ==> before[i] == fs[i];
      }
    }
  }

  /** The finalized calls are the current ones exactly when the fragments were quiet. */
  lemma {:induction false} SettledIffQuiet(fs: seq<Fragment>)
    ensures Settled(After(fs).calls, After(fs).finals) <==> Quiet(fs)
  {
    hide Find, Put;
    if fs != [] {
      var n := |fs| - 1;
      var before, f := fs[..n], fs[n];
      FinalIds(before, f.id);
      SettledIffQuiet(before);
      SettledStep(After(before), f);
      QuietSnoc(before, f);
      assert fs == before + [f];
    }
  }

  lemma QuietSnoc(fs: seq<Fragment>, f: Fragment)
    ensures Quiet(fs + [f]) <==>
            Quiet(fs) && ((exists i :: 0 <= i < |fs| && fs[i].id == f.id && fs[i].isLast) ==>
              !f.isLast && f.arguments == "")
  {
    var more := fs + [f];
    assert forall i :: 0 <= i < |fs| ==> more[i] == fs[i];
    if Quiet(more) {
      forall i, k | 0 <= i < k < |fs| && fs[i].id == fs[k].id && fs[i].isLast
        ensures !fs[k].isLast && fs[k].arguments == "" {
        assert more[i] == fs[i] && more[k] == fs[k];
      }
      if exists i :: 0 <= i < |fs| && fs[i].id == f.id && fs[i].isLast {
        var i :| 0 <= i < |fs| && fs[i].id == f.id && fs[i].isLast;
        assert more[i] == fs[i] && more[|fs|] == f;
      }
    }
  }

  // ----- whole buffers -----

  /** The tool fragments the JSON run decodes before it ends. */
  function RunFragments(e: Env, s: JsonState, ps: seq<seq<byte>>, fs: seq<Fragment>): seq<Fragment>
    decreases |ps|
  {
    if ps == [] then fs
    else match JsonStep(e, s, ps[0])
      case Going(s') =>
        var x := e.extract(ps[0]);
        RunFragments(e, s', ps[1..], if x.tool.Some? then fs + [x.tool.value] else fs)
      case _ => fs
  }

  /** All tool fragments of a buffer that reach the decoders. */
  function BufferFragments(e: Env, b: seq<byte>): seq<Fragment>
  {
    RunFragments(e, JsonState("", [], []), Payloads(e, b, 0).payloads, [])
  }

  predicate Tracks(s: JsonState, fs: seq<Fragment>)
  {
    Tools(s.calls, s.finals) == After(fs)
  }

  lemma AfterSnoc(fs: seq<Fragment>, f: Fragment)
    ensures After(fs + [f]) == Put(After(fs), f)
  {
    assert (fs + [f])[..|fs|] == fs;
  }

  lemma StepTracks(e: Env, s: JsonState, payload: seq<byte>, fs: seq<Fragment>)
    requires Tracks(s, fs) && JsonStep(e, s, payload).Going?
    ensures var x := e.extract(payload);
            Tracks(JsonStep(e, s, payload).state, if x.tool.Some? then fs + [x.tool.value] else fs)
  {
    hide Accumulate, Find, After;
    var x := e.extract(payload);
    if x.tool.Some? {
      AfterSnoc(fs, x.tool.value);
    }
  }

  lemma BreakKeeps(e: Env, s: JsonState, payload: seq<byte>)
    ensures var o := JsonStep(e, s, payload); o.Broke? ==> o.state == s
  {
  }

  lemma {:induction false} RunTracks(e: Env, s: JsonState, ps: seq<seq<byte>>, fs: seq<Fragment>)
    requires Tracks(s, fs)
    ensures var o := JsonRun(e, s, ps); !o.Replied? ==> Tracks(o.state, RunFragments(e, s, ps, fs))
    decreases |ps|
  {
    hide JsonStep, Tracks;
    if ps != [] {
      BreakKeeps(e, s, ps[0]);
    }
    if ps != [] && JsonStep(e, s, ps[0]).Going? {
      StepTracks(e, s, ps[0], fs);
      var x := e.extract(ps[0]);
      RunTracks(e, JsonStep(e, s, ps[0]).state, ps[1..], if x.tool.Some? then fs + [x.tool.value] else fs);
    }
  }

  /** Text and finish reason agree always; the tool calls agree exactly when the fragments were quiet. */
  lemma AnswersAgree(j: JsonState, s: SseState, fs: seq<Fragment>)
    requires Paired(j, s) && Tracks(j, fs)
    ensures var a, t := JsonAnswer(j), SseAnswer(s);
            && TextOf(t.chunks) == a.content
            && t.finishReason == a.finishReason
            && (SameCalls(a.calls, CallsOf(t.chunks)) <==> Quiet(fs))
  {
    hide Find, Unfinished, After, Settled, SameCalls, Quiet, TextOf, CallsOf;
    FinalIds(fs, "");
    SettledIffQuiet(fs);
    var chunks := SseAnswer(s).chunks;
    assert TextOf(chunks) == s.content && CallsOf(chunks) == s.calls by {
      EmptyChunks();
      Snoc([], Role);
      assert [] + [Role] == [Role];
    }
    NonEmptyTogether(j.calls, j.finals);
    if Settled(j.calls, j.finals) {
      SettledGivesSame(j.calls, j.finals);
    }
    if SameCalls(JsonCalls(j), j.calls) {
      SameGivesSettled(j.calls, j.finals);
    }
  }

  lemma NonEmptyTogether(calls: seq<Call>, finals: seq<Call>)
    requires Consistent(calls, finals)
    ensures finals + Unfinished(calls, finals) == [] <==> calls == []
  {
    if finals != [] {
      assert finals[0] in finals;
    }
    if calls != [] && finals == [] {
      assert Find(finals, calls[0].id).None?;
    }
  }

  /**
   * For every buffer the two decoders give the same error reply, or the same text and finish reason; and then the
   * JSON calls are the streamed calls, id by id, exactly when no call was continued or marked again after its last
   * fragment.
   */
  lemma DecodersAgree(e: Env, b: seq<byte>)
    ensures match (ToJson(e, b), ToSse(e, b))
            case (Refused(r), RefusedStream(q)) => r == q
            case (Answered(content, calls, reason), Streamed(chunks, reason')) =>
              && content == TextOf(chunks)
              && reason == reason'
              && (SameCalls(calls, CallsOf(chunks)) <==> Quiet(BufferFragments(e, b)))
            case _ => false
  {
    hide JsonRun, SseRun, Payloads, SameCalls, Quiet, TextOf, CallsOf, JsonAnswer, SseAnswer, After, Mirrors,
      RunFragments;
    var j, s := JsonState("", [], []), SseState("", [], []);
    var ps := Payloads(e, b, 0).payloads;
    assert Mirrors(s) by { StartMirrors(); }
    RunsPair(e, j, s, ps);
    assert Tracks(j, []) by { StartTracks(); }
    RunTracks(e, j, ps, []);
    var x, y := JsonRun(e, j, ps), SseRun(e, s, ps);
    if !x.Replied? {
      AnswersAgree(x.state, y.state, RunFragments(e, j, ps, []));
    }
    AnswerShapes();
  }

  lemma StartMirrors()
    ensures Mirrors(SseState("", [], []))
  {
  }

  lemma StartTracks()
    ensures Tracks(JsonState("", [], []), [])
  {
  }

  lemma AnswerShapes()
    ensures forall j :: JsonAnswer(j).Answered?
    ensures forall s :: SseAnswer(s).Streamed?
  {
  }

  // ----- responses about which they disagree -----

  /** A payload that both decoders read as nothing but a finished fragment of call `id`. */
  predicate Finishes(e: Env, payload: seq<byte>, id: string)
  {
    var x := e.extract(payload);
    !e.mentionsError(payload) && x.error == "" && x.tool.Some? && x.tool.value.id == id && x.tool.value.isLast
  }

  lemma FinishingStep(e: Env, s: JsonState, payload: seq<byte>, id: string)
    requires Finishes(e, payload, id)
    ensures JsonStep(e, s, payload).Going?
  {
  }

  /** Whenever two frames finish one call, the JSON answer lists it twice and the streamed one once. */
  lemma FinishedTwice(e: Env, b: seq<byte>, p: seq<byte>, q: seq<byte>, id: string)
    requires Refusal(e, b).None? && Payloads(e, b, 0) == Framed([p, q], true)
    requires Finishes(e, p, id) && Finishes(e, q, id)
    ensures ToJson(e, b).Answered? && ToSse(e, b).Streamed?
    ensures !SameCalls(ToJson(e, b).calls, CallsOf(ToSse(e, b).chunks))
  {
    hide JsonStep, SameCalls, CallsOf, ToSse, JsonAnswer;
    var s0 := JsonState("", [], []);
    FinishingStep(e, s0, p, id);
    var s1 := JsonStep(e, s0, p).state;
    FinishingStep(e, s1, q, id);
    var ps := [p, q];
    assert ps[1..] == [q] && [q][1..] == [];
    var s2 := JsonStep(e, s1, q).state;
    var f, h := e.extract(p).tool.value, e.extract(q).tool.value;
    assert JsonRun(e, s1, [q]) == JsonRun(e, s2, []) && JsonRun(e, s0, ps) == JsonRun(e, s1, [q]);
    assert RunFragments(e, s1, [q], [f]) == RunFragments(e, s2, [], [f] + [h]);
    assert RunFragments(e, s0, ps, []) == RunFragments(e, s1, [q], [] + [f]) && [] + [f] == [f];
    var fs := BufferFragments(e, b);
    assert fs == [f, h];
    assert fs[0].isLast && fs[1].isLast && fs[0].id == fs[1].id;
    assert !Quiet(fs);
    AnswerShapes();
    DecodersAgree(e, b);
  }
}
