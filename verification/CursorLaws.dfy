/** What Cursor's decoders answer, told from the frames of the response and what each payload holds. */
module CursorLaws {
  import opened Bytes
  import opened Envelopes
  import CD = CursorDecoders
  import CA = CursorAgreement

  // ----- frames -----

  ghost predicate Sized(fs: seq<Packed>)
  {
    forall i :: 0 <= i < |fs| ==> |fs[i].data| < 0x1_0000_0000
  }

  function Wire(fs: seq<Packed>): seq<byte>
    requires forall i :: 0 <= i < |fs| ==> |fs[i].data| < 0x1_0000_0000
  {
    if fs == [] then [] else Envelope(fs[0].flag, fs[0].data) + Wire(fs[1..])
  }

  /** The payloads as the decoders see them. */
  function Inflated(e: CD.Env, fs: seq<Packed>): (ps: seq<seq<byte>>)
    ensures |ps| == |fs|
  {
    if fs == [] then [] else [e.inflate(fs[0].flag, fs[0].data)] + Inflated(e, fs[1..])
  }

  /** What is left when the response breaks off: nothing, or less than a frame. */
  predicate BrokenOff(tail: seq<byte>)
  {
    0 < |tail| && (|tail| < 5 || |tail| < 5 + U32(tail, 1))
  }

  lemma FrameReads(e: CD.Env, pre: seq<byte>, p: Packed, post: seq<byte>)
    requires |p.data| < 0x1_0000_0000
    ensures |Envelope(p.flag, p.data)| == 5 + |p.data|
    ensures CD.ReadFrame(e, pre + Envelope(p.flag, p.data) + post, |pre|)
         == CD.Read(e.inflate(p.flag, p.data), |pre| + 5 + |p.data|)
  {
    var b := pre + Envelope(p.flag, p.data) + post;
    assert b == (pre + [p.flag]) + EncodeU32(|p.data|) + (p.data + post);
    U32At(pre + [p.flag], |p.data|, p.data + post);
    assert b == (pre + [p.flag] + EncodeU32(|p.data|)) + p.data + post;
    assert |pre + [p.flag] + EncodeU32(|p.data|)| == |pre| + 5;
    assert b[|pre|] == p.flag && b[|pre| + 5..|pre| + 5 + |p.data|] == p.data;
  }

  lemma TailReads(e: CD.Env, pre: seq<byte>, tail: seq<byte>)
    requires tail == [] || BrokenOff(tail)
    ensures CD.ReadFrame(e, pre + tail, |pre|) == if tail == [] then CD.Eof else CD.Incomplete
  {
    var b := pre + tail;
    if |tail| >= 5 {
      assert b[|pre| + 1..|pre| + 1 + WORD] == tail[1..1 + WORD];
    }
  }

  lemma Regroup(a: seq<byte>, b: seq<byte>, c: seq<byte>, d: seq<byte>)
    ensures a + (b + c) + d == a + b + (c + d) && a + b + (c + d) == (a + b) + c + d
  {
  }

  /** The frames come out in order, and a response that breaks off is noticed. */
  lemma {:induction false} PayloadsAre(e: CD.Env, pre: seq<byte>, fs: seq<Packed>, tail: seq<byte>)
    requires Sized(fs) && (tail == [] || BrokenOff(tail))
    ensures CD.Payloads(e, pre + Wire(fs) + tail, |pre|) == CD.Framed(Inflated(e, fs), tail == [])
    decreases |fs|
  {
    hide CD.ReadFrame, BrokenOff, Envelope;
    if fs == [] {
      assert pre + Wire(fs) + tail == pre + tail;
      TailReads(e, pre, tail);
    } else {
      var f, rest := Envelope(fs[0].flag, fs[0].data), Wire(fs[1..]);
      Regroup(pre, f, rest, tail);
      FrameReads(e, pre, fs[0], rest + tail);
      PayloadsAre(e, pre + f, fs[1..], tail);
    }
  }

  // ----- what the payloads hold -----

  /** Neither an error object nor an error in the message. */
  predicate Clean(e: CD.Env, p: seq<byte>)
  {
    !e.mentionsError(p) && e.extract(p).error == ""
  }

  function TextIn(e: CD.Env, ps: seq<seq<byte>>): string
  {
    if ps == [] then "" else e.extract(ps[0]).text + TextIn(e, ps[1..])
  }

  function FragmentsIn(e: CD.Env, ps: seq<seq<byte>>): seq<CD.Fragment>
  {
    if ps == [] then []
    else
      var tool := e.extract(ps[0]).tool;
      (if tool.Some? then [tool.value] else []) + FragmentsIn(e, ps[1..])
  }

  /** Ids in order of first appearance. */
  function IdsIn(fs: seq<CD.Fragment>): seq<string>
  {
    if fs == [] then []
    else
      var ids, id := IdsIn(fs[..|fs| - 1]), fs[|fs| - 1].id;
      if id in ids then ids else ids + [id]
  }

  /** The argument text of one id, fragment after fragment. */
  function ArgumentsOf(fs: seq<CD.Fragment>, id: string): string
  {
    if fs == [] then ""
    else
      var f := fs[|fs| - 1];
      ArgumentsOf(fs[..|fs| - 1], id) + if f.id == id then f.arguments else ""
  }

  /** The name its first fragment gave it. */
  function NameFirst(fs: seq<CD.Fragment>, id: string): string
  {
    if fs == [] then "" else if fs[0].id == id then fs[0].name else NameFirst(fs[1..], id)
  }

  /** One call per id. */
  function CallsIn(fs: seq<CD.Fragment>): seq<CD.Call>
  {
    var ids := IdsIn(fs);
    seq(|ids|, i requires 0 <= i < |ids| => CD.Call(ids[i], NameFirst(fs, ids[i]), ArgumentsOf(fs, ids[i])))
  }

  // ----- the accumulated map is the reference -----

  lemma {:induction false} IdsAreDistinct(fs: seq<CD.Fragment>)
    ensures forall i, j :: 0 <= i < j < |IdsIn(fs)| ==> IdsIn(fs)[i] != IdsIn(fs)[j]
    ensures forall id :: id in IdsIn(fs) <==> exists i :: 0 <= i < |fs| && fs[i].id == id
  {
    if fs != [] {
      var n := |fs| - 1;
      IdsAreDistinct(fs[..n]);
      forall id ensures id in IdsIn(fs) <==> exists i :: 0 <= i < |fs| && fs[i].id == id {
        if exists i :: 0 <= i < n && fs[..n][i].id == id {
          var i :| 0 <= i < n && fs[..n][i].id == id;
          assert fs[i].id == id;
        }
        if exists i :: 0 <= i < |fs| && fs[i].id == id {
          var i :| 0 <= i < |fs| && fs[i].id == id;
          assert i < n ==> fs[..n][i].id == id;
        }
      }
    }
  }

  lemma {:induction false} NameSnoc(fs: seq<CD.Fragment>, f: CD.Fragment, id: string)
    ensures id in IdsIn(fs) ==> NameFirst(fs + [f], id) == NameFirst(fs, id)
    ensures id !in IdsIn(fs) && f.id == id ==> NameFirst(fs + [f], id) == f.name
    decreases |fs|
  {
    IdsAreDistinct(fs);
    if fs == [] {
      assert fs + [f] == [f];
    } else {
      assert (fs + [f])[1..] == fs[1..] + [f];
      IdsAreDistinct(fs[1..]);
      NameSnoc(fs[1..], f, id);
      if fs[0].id != id {
        assert id in IdsIn(fs) <==> id in IdsIn(fs[1..]) by {
          assert forall i :: 0 < i < |fs| ==> fs[i] == fs[1..][i - 1];
          if id in IdsIn(fs[1..]) {
            var i :| 0 <= i < |fs[1..]| && fs[1..][i].id == id;
            assert fs[i + 1].id == id;
          }
        }
      } else {
        assert fs[0].id == id && id in IdsIn(fs);
      }
    }
  }

  lemma ReferenceSnoc(fs: seq<CD.Fragment>, f: CD.Fragment, id: string)
    ensures IdsIn(fs + [f]) == if f.id in IdsIn(fs) then IdsIn(fs) else IdsIn(fs) + [f.id]
    ensures ArgumentsOf(fs + [f], id) == ArgumentsOf(fs, id) + if f.id == id then f.arguments else ""
  {
    assert (fs + [f])[..|fs|] == fs;
  }

  lemma AccumulatesReference(fs: seq<CD.Fragment>, f: CD.Fragment)
    ensures CD.Accumulate(CallsIn(fs), f) == CallsIn(fs + [f])
  {
    hide NameFirst, IdsIn, ArgumentsOf;
    var all, ids, calls := fs + [f], IdsIn(fs), CallsIn(fs);
    IdsAreDistinct(fs);
    ReferenceSnoc(fs, f, f.id);
    NameSnoc(fs, f, f.id);
    var now := CD.Accumulate(calls, f);
    forall i | 0 <= i < |ids| ensures now[i] == CallsIn(all)[i] {
      assert ids[i] in ids;
      NameSnoc(fs, f, ids[i]);
      ReferenceSnoc(fs, f, ids[i]);
      assert ArgumentsOf(fs, ids[i]) + "" == ArgumentsOf(fs, ids[i]);
    }
    if CD.Find(calls, f.id).None? {
      forall i | 0 <= i < |ids| ensures ids[i] != f.id {
        assert calls[i].id == ids[i];
      }
      NoArguments(fs, f.id);
      assert "" + f.arguments == f.arguments;
    } else {
      assert ids[CD.Find(calls, f.id).value] == f.id;
    }
    assert |now| == |CallsIn(all)|;
  }

  lemma {:induction false} NoArguments(fs: seq<CD.Fragment>, id: string)
    requires id !in IdsIn(fs)
    ensures ArgumentsOf(fs, id) == ""
  {
    if fs != [] {
      NoArguments(fs[..|fs| - 1], id);
    }
  }

  // ----- runs over clean payloads -----

  lemma CleanStep(e: CD.Env, s: CD.JsonState, p: seq<byte>)
    requires Clean(e, p)
    ensures var x, o := e.extract(p), CD.JsonStep(e, s, p);
            && o.Going? && o.state.content == s.content + x.text
            && o.state.calls == if x.tool.Some? then CD.Accumulate(s.calls, x.tool.value) else s.calls
  {
  }

  /** The run so far holds the text and the calls of the fragments so far. */
  predicate Holds(s: CD.JsonState, text: string, fs: seq<CD.Fragment>)
  {
    s.content == text && s.calls == CallsIn(fs)
  }

  lemma {:induction false} CleanRun(
      e: CD.Env, s: CD.JsonState, ps: seq<seq<byte>>, more: seq<seq<byte>>, text: string, fs: seq<CD.Fragment>)
    returns (s': CD.JsonState)
    requires Holds(s, text, fs) && forall i :: 0 <= i < |ps| ==> Clean(e, ps[i])
    ensures CD.JsonRun(e, s, ps + more) == CD.JsonRun(e, s', more)
    ensures CA.RunFragments(e, s, ps + more, fs) == CA.RunFragments(e, s', more, fs + FragmentsIn(e, ps))
    ensures Holds(s', text + TextIn(e, ps), fs + FragmentsIn(e, ps))
    decreases |ps|
  {
    hide CD.JsonStep, Clean, CallsIn;
    if ps == [] {
      s' := s;
      assert ps + more == more && text + "" == text && fs + [] == fs;
    } else {
      var p, x := ps[0], e.extract(ps[0]);
      CleanStep(e, s, p);
      var next := CD.JsonStep(e, s, p).state;
      var now := if x.tool.Some? then fs + [x.tool.value] else fs;
      if x.tool.Some? {
        AccumulatesReference(fs, x.tool.value);
      }
      s' := CleanRun(e, next, ps[1..], more, text + x.text, now);
      assert (ps + more)[0] == p && (ps + more)[1..] == ps[1..] + more;
      assert text + TextIn(e, ps) == (text + x.text) + TextIn(e, ps[1..]);
      assert fs + FragmentsIn(e, ps) == now + FragmentsIn(e, ps[1..]);
    }
  }

  lemma EmptyHolds()
    ensures Holds(CD.JsonState("", [], []), "", [])
  {
  }

  /** The calls are there exactly when fragments came. */
  lemma CallsIffFragments(fs: seq<CD.Fragment>)
    ensures CallsIn(fs) == [] <==> fs == []
  {
    IdsAreDistinct(fs);
    if fs != [] {
      assert fs[0].id in IdsIn(fs);
    }
  }

  // ----- what is answered -----

  /** Both decoders give this text, these calls (JSON when the fragments were quiet) and this finish reason. */
  ghost predicate Gives(e: CD.Env, b: seq<byte>, text: string, fs: seq<CD.Fragment>)
  {
    var j, s := CD.ToJson(e, b), CD.ToSse(e, b);
    && j.Answered? && s.Streamed?
    && j.content == text && CA.TextOf(s.chunks) == text
    && CA.CallsOf(s.chunks) == CallsIn(fs)
    && (CA.SameCalls(j.calls, CallsIn(fs)) <==> CA.Quiet(fs))
    && j.finishReason == (if fs == [] then "stop" else "tool_calls") && s.finishReason == j.finishReason
  }

  lemma AnswersAs(e: CD.Env, b: seq<byte>, s: CD.JsonState, text: string, fs: seq<CD.Fragment>)
    requires CD.Refusal(e, b).None? && Holds(s, text, fs)
    requires var o := CD.JsonRun(e, CD.JsonState("", [], []), CD.Payloads(e, b, 0).payloads);
             o == CD.Broke(s) || (o == CD.Going(s) && CD.Payloads(e, b, 0).complete)
    requires CA.BufferFragments(e, b) == fs
    ensures Gives(e, b, text, fs)
  {
    hide CD.JsonRun, CD.SseRun, CD.Payloads, CA.SameCalls, CA.Quiet, CA.TextOf, CA.CallsOf, CA.Mirrors, CallsIn,
      CA.BufferFragments;
    var j0, s0, ps := CD.JsonState("", [], []), CD.SseState("", [], []), CD.Payloads(e, b, 0).payloads;
    CA.DecodersAgree(e, b);
    CA.StartMirrors();
    CA.RunsPair(e, j0, s0, ps);
    var sse := CD.SseRun(e, s0, ps).state;
    MirrorsText(sse);
    CallsIffFragments(fs);
    assert CA.CallsOf(CD.SseAnswer(sse).chunks) == sse.calls by { RoleOnly(); }
  }

  lemma MirrorsText(s: CD.SseState)
    requires CA.Mirrors(s)
    ensures CA.TextOf(s.chunks) == s.content && CA.CallsOf(s.chunks) == s.calls
  {
  }

  lemma RoleOnly()
    ensures CA.CallsOf([CD.Role]) == [] && CA.TextOf([CD.Role]) == ""
  {
    CA.EmptyChunks();
    CA.Snoc([], CD.Role);
    assert [] + [CD.Role] == [CD.Role];
  }

  /** The run up to `more`, from the start. */
  lemma FromTheStart(e: CD.Env, ps: seq<seq<byte>>, more: seq<seq<byte>>) returns (s: CD.JsonState)
    requires forall i :: 0 <= i < |ps| ==> Clean(e, ps[i])
    ensures CD.JsonRun(e, CD.JsonState("", [], []), ps + more) == CD.JsonRun(e, s, more)
    ensures CA.RunFragments(e, CD.JsonState("", [], []), ps + more, [])
            == CA.RunFragments(e, s, more, FragmentsIn(e, ps))
    ensures Holds(s, TextIn(e, ps), FragmentsIn(e, ps))
  {
    hide CD.JsonRun, CA.RunFragments, Holds, Clean;
    EmptyHolds();
    s := CleanRun(e, CD.JsonState("", [], []), ps, more, "", []);
    assert "" + TextIn(e, ps) == TextIn(e, ps) && [] + FragmentsIn(e, ps) == FragmentsIn(e, ps);
  }

  /**
   * A response without errors: the content is the payloads' text in order, every id has one call with its first
   * name and all its arguments, and the finish reason is "tool_calls" exactly when a fragment came.
   */
  lemma CleanResponse(e: CD.Env, fs: seq<Packed>)
    requires Sized(fs) && fs != [] && |Wire(fs)| <= e.maxBytes
    requires forall i :: 0 <= i < |fs| ==> Clean(e, Inflated(e, fs)[i])
    ensures Gives(e, Wire(fs), TextIn(e, Inflated(e, fs)), FragmentsIn(e, Inflated(e, fs)))
  {
    hide Holds, Clean, CD.Payloads, CD.JsonRun, CA.RunFragments, Gives;
    var ps, b := Inflated(e, fs), Wire(fs);
    PayloadsAre(e, [], fs, []);
    assert [] + b + [] == b && ps + [] == ps;
    var s := FromTheStart(e, ps, []);
    NothingMore(e, s, FragmentsIn(e, ps));
    AnswersAs(e, b, s, TextIn(e, ps), FragmentsIn(e, ps));
  }

  lemma NothingMore(e: CD.Env, s: CD.JsonState, fs: seq<CD.Fragment>)
    ensures CD.JsonRun(e, s, []) == CD.Going(s) && CA.RunFragments(e, s, [], fs) == fs
  {
  }

  /** A response that breaks off inside a frame is refused, whatever came before. */
  lemma BrokenResponse(e: CD.Env, fs: seq<Packed>, tail: seq<byte>)
    requires Sized(fs) && BrokenOff(tail) && |Wire(fs) + tail| <= e.maxBytes
    requires forall i :: 0 <= i < |fs| ==> Clean(e, Inflated(e, fs)[i])
    ensures CD.ToJson(e, Wire(fs) + tail) == CD.Refused(CD.ProtocolError("invalid_cursor_protobuf"))
  {
    hide Holds, Clean, CD.Payloads, CD.JsonRun, CA.RunFragments;
    var ps, b := Inflated(e, fs), Wire(fs) + tail;
    PayloadsAre(e, [], fs, tail);
    assert [] + Wire(fs) + tail == b && ps + [] == ps;
    var s := FromTheStart(e, ps, []);
    NothingMore(e, s, FragmentsIn(e, ps));
  }

  lemma {:induction false} InflatedAppend(e: CD.Env, fs: seq<Packed>, gs: seq<Packed>)
    ensures Inflated(e, fs + gs) == Inflated(e, fs) + Inflated(e, gs)
    decreases |fs|
  {
    if fs == [] {
      assert fs + gs == gs;
    } else {
      assert (fs + gs)[1..] == fs[1..] + gs && (fs + gs)[0] == fs[0];
      InflatedAppend(e, fs[1..], gs);
    }
  }

  /** What an error payload does: it ends a response that has begun, and answers one that has not. */
  ghost predicate EndsWith(e: CD.Env, b: seq<byte>, text: string, fs: seq<CD.Fragment>, p: seq<byte>)
  {
    if text != "" || fs != [] then Gives(e, b, text, fs)
    else if e.mentionsError(p) && e.errorReply(p).Some? then CD.ToJson(e, b) == CD.Refused(e.errorReply(p).value)
    else e.extract(p).error != "" ==> CD.ToJson(e, b) == CD.Refused(CD.RateLimited(e.extract(p).error))
  }

  lemma ErrorStep(e: CD.Env, s: CD.JsonState, p: seq<byte>, more: seq<seq<byte>>, fs: seq<CD.Fragment>)
    requires !Clean(e, p)
    ensures s.content != "" || s.calls != [] ==>
              CD.JsonRun(e, s, [p] + more) == CD.Broke(s) && CA.RunFragments(e, s, [p] + more, fs) == fs
    ensures s.content == "" && s.calls == [] && e.mentionsError(p) && e.errorReply(p).Some? ==>
              CD.JsonRun(e, s, [p] + more) == CD.Replied(e.errorReply(p).value)
    ensures s.content == "" && s.calls == [] && !(e.mentionsError(p) && e.errorReply(p).Some?)
            && e.extract(p).error != "" ==>
              CD.JsonRun(e, s, [p] + more) == CD.Replied(CD.RateLimited(e.extract(p).error))
  {
    assert ([p] + more)[0] == p;
  }

  /** The first error payload decides, whatever follows it. */
  lemma ErrorEndsResponse(e: CD.Env, fs: seq<Packed>, bad: Packed, gs: seq<Packed>, tail: seq<byte>)
    requires Sized(fs) && Sized([bad] + gs) && (tail == [] || BrokenOff(tail))
    requires Sized(fs + ([bad] + gs)) && |Wire(fs + ([bad] + gs)) + tail| <= e.maxBytes
    requires forall i :: 0 <= i < |fs| ==> Clean(e, Inflated(e, fs)[i])
    requires !Clean(e, e.inflate(bad.flag, bad.data))
    ensures EndsWith(e, Wire(fs + ([bad] + gs)) + tail, TextIn(e, Inflated(e, fs)), FragmentsIn(e, Inflated(e, fs)),
                     e.inflate(bad.flag, bad.data))
  {
    hide Clean, CD.Payloads, CD.JsonRun, CA.RunFragments, Gives, Wire, BrokenOff, CallsIn;
    var all, p := fs + ([bad] + gs), e.inflate(bad.flag, bad.data);
    var ps, b := Inflated(e, fs), Wire(all) + tail;
    PayloadsAre(e, [], all, tail);
    assert [] + Wire(all) + tail == b;
    InflatedAppend(e, fs, [bad] + gs);
    assert ([bad] + gs)[0] == bad && ([bad] + gs)[1..] == gs;
    var more := [p] + Inflated(e, gs);
    assert Inflated(e, [bad] + gs) == more;
    var s := FromTheStart(e, ps, more);
    ErrorStep(e, s, p, Inflated(e, gs), FragmentsIn(e, ps));
    CallsIffFragments(FragmentsIn(e, ps));
    assert b != [] by { WireNotEmpty(all); }
    if TextIn(e, ps) != "" || FragmentsIn(e, ps) != [] {
      AnswersAs(e, b, s, TextIn(e, ps), FragmentsIn(e, ps));
    }
  }

  lemma WireNotEmpty(fs: seq<Packed>)
    requires Sized(fs) && fs != []
    ensures Wire(fs) != []
  {
  }
}
