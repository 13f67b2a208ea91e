/** Tool calls of a Kiro turn: for every interleaving of fragments, what is buffered and what is emitted. */
module KiroTools {
  import opened Bytes
  import opened Json
  import opened EventStream
  import opened KiroStop
  import opened KiroTurn

  // ----- the byte counter -----

  function PartsCost(e: Env, parts: seq<string>): nat
  {
    if parts == [] then 0 else PartsCost(e, parts[..|parts| - 1]) + e.size(parts[|parts| - 1])
  }

  function Cost(e: Env, t: Tool): nat
  {
    e.size(t.id) + e.size(t.name) + TOOL_OVERHEAD
    + match t.input
      case NoInput => 0
      case Chunks(parts) => PartsCost(e, parts)
      case Object(v) => e.size(e.show(v))
  }

  function Total(e: Env, tools: seq<Tool>): nat
  {
    if tools == [] then 0 else Total(e, tools[..|tools| - 1]) + Cost(e, tools[|tools| - 1])
  }

  predicate DistinctIds(tools: seq<Tool>)
  {
    forall i, j :: 0 <= i < j < |tools| ==> tools[i].id != tools[j].id
  }

  /** The counter is the cost of exactly the buffered calls, one call per id. */
  predicate Counted(e: Env, b: Buffered)
  {
    b.bytes == Total(e, b.tools) && DistinctIds(b.tools)
  }

  lemma {:induction false} TotalUpdate(e: Env, tools: seq<Tool>, k: nat, t: Tool)
    requires k < |tools|
    ensures Total(e, tools[k := t]) == Total(e, tools) - Cost(e, tools[k]) + Cost(e, t)
    decreases |tools|
  {
    hide Cost;
    var n := |tools| - 1;
    if k == n {
      assert tools[k := t][..n] == tools[..n];
    } else {
      TotalUpdate(e, tools[..n], k, t);
      assert tools[k := t][..n] == tools[..n][k := t];
    }
  }

  lemma AppendCost(e: Env, tool: Tool, v: Json)
    requires Append(tool.input, Some(v)).Some?
    ensures Cost(e, tool.(input := Append(tool.input, Some(v)).value)) == Cost(e, tool) + Growth(e, tool.input, v)
  {
    if v.JStr? {
      var had: seq<string> := if tool.input.Chunks? then tool.input.parts else [];
      assert (had + [v.s])[..|had|] == had;
      assert PartsCost(e, had + [v.s]) == PartsCost(e, had) + e.size(v.s);
    }
  }

  lemma AppendCounted(e: Env, b: Buffered, k: nat, v: Option<Json>)
    requires Counted(e, b) && k < |b.tools| && b.bytes <= e.maxToolBytes
    ensures var (b', o) := AppendAt(e, b, k, v); Counted(e, b') && (o.Exceeded? <==> b'.bytes > e.maxToolBytes)
  {
    hide Cost, Growth, Total;
    if v.Some? && Append(b.tools[k].input, v).Some? {
      AppendCost(e, b.tools[k], v.value);
      TotalUpdate(e, b.tools, k, b.tools[k].(input := Append(b.tools[k].input, v).value));
    }
  }

  lemma OpenedCounted(e: Env, b: Buffered, id: string, name: string)
    requires Counted(e, b) && Find(b.tools, id).None?
    ensures Counted(e, Opened(e, b, id, name))
  {
    var o := Opened(e, b, id, name);
    assert o.tools[..|b.tools|] == b.tools;
  }

  /** Every fragment keeps the counter exact, and within the bound unless it reports the overflow. */
  lemma FragmentCounted(e: Env, b: Buffered, v: Json)
    requires Counted(e, b) && b.bytes <= e.maxToolBytes
    ensures var (b', o) := AddFragment(e, b, v); Counted(e, b') && (o.Exceeded? <==> b'.bytes > e.maxToolBytes)
  {
    hide Counted, AppendAt, FragmentId, FragmentName;
    var name, id := FragmentName(e, v), FragmentId(e, b, v);
    if name != "" && id.Some? {
      match Find(b.tools, id.value)
      case Some(k) => AppendCounted(e, b, k, Get(Some(v), "input"));
      case None =>
        OpenedCounted(e, b, id.value, name);
        var b1 := Opened(e, b, id.value, name);
        if b1.bytes <= e.maxToolBytes {
          AppendCounted(e, b1, |b.tools|, Get(Some(v), "input"));
        }
    }
  }

  lemma {:induction false} FragmentsCounted(e: Env, b: Buffered, vs: seq<Json>)
    requires Counted(e, b) && b.bytes <= e.maxToolBytes
    ensures var (b', o) := AddFragments(e, b, vs); Counted(e, b') && (o.Exceeded? <==> b'.bytes > e.maxToolBytes)
    decreases |vs|
  {
    hide Counted, AddFragment;
    if vs != [] {
      FragmentCounted(e, b, vs[0]);
      if AddFragment(e, b, vs[0]).1.Accepted? {
        FragmentsCounted(e, AddFragment(e, b, vs[0]).0, vs[1..]);
      }
    }
  }

  lemma PlainKeepsBuffer(e: Env, t: Turn, ev: Event)
    ensures PlainEvent(e, t, ev).buffered == t.buffered
  {
    hide ReportedReason, StopWith, Emit;
  }

  lemma ToolStepCounted(e: Env, t: Turn, payload: Option<Json>)
    requires Counted(e, t.buffered) && t.buffered.bytes <= e.maxToolBytes
    ensures var (t', go) := ToolStep(e, t, payload);
            Counted(e, t'.buffered) && (go <==> t'.buffered.bytes <= e.maxToolBytes)
  {
    hide Counted, AddFragments, FailWith;
    var vs := FragmentValues(payload);
    var (b, o) := ToolUseEvent(e, t.buffered, payload);
    if vs != [] && Truthy(Some(vs[0])) {
      FragmentsCounted(e, t.buffered, vs);
      assert (b, o) == AddFragments(e, t.buffered, vs);
    }
    assert o.Exceeded? <==> b.bytes > e.maxToolBytes;
  }

  /** Reading stops exactly at an upstream error or when the buffered calls exceed the bound. */
  lemma StepCounted(e: Env, t: Turn, ev: Event)
    requires Counted(e, t.buffered) && t.buffered.bytes <= e.maxToolBytes
    ensures var (t', go) := Step(e, t, ev);
            Counted(e, t'.buffered) && (go <==> !UpstreamError(ev) && t'.buffered.bytes <= e.maxToolBytes)
  {
    hide Counted, ToolStep, PlainEvent, FailWith;
    ToolStepCounted(e, Validated(t), ev.payload);
    PlainKeepsBuffer(e, Validated(t), ev);
  }

  // ----- which fragment belongs to which call -----

  /** A fragment that was filed under an id; `input` is what it contributed. */
  datatype Piece = Piece(id: string, name: string, input: Option<Json>)

  function FirstIds(ps: seq<Piece>): seq<string>
  {
    if ps == [] then []
    else
      var ids, last := FirstIds(ps[..|ps| - 1]), ps[|ps| - 1].id;
      if last in ids then ids else ids + [last]
  }

  /** The contributions filed under `id`, in arrival order. */
  function Own(ps: seq<Piece>, id: string): seq<Json>
  {
    if ps == [] then []
    else
      var own, last := Own(ps[..|ps| - 1], id), ps[|ps| - 1];
      if last.id == id && last.input.Some? then own + [last.input.value] else own
  }

  function NameOf(ps: seq<Piece>, id: string): string
  {
    if ps == [] then ""
    else if id in FirstIds(ps[..|ps| - 1]) then NameOf(ps[..|ps| - 1], id)
    else if ps[|ps| - 1].id == id then ps[|ps| - 1].name
    else ""
  }

  predicate AllText(vs: seq<Json>) { forall v :: v in vs ==> v.JStr? }
  predicate AllObjects(vs: seq<Json>) { forall v :: v in vs ==> v.JObj? }

  function Texts(vs: seq<Json>): seq<string>
    requires AllText(vs)
  {
    seq(|vs|, i requires 0 <= i < |vs| => assert vs[i] in vs; vs[i].s)
  }

  /** Strings concatenate; of several objects the last one counts. */
  function InputOf(vs: seq<Json>): Input
    requires AllText(vs) || AllObjects(vs)
  {
    if vs == [] then NoInput
    else if AllText(vs) then Chunks(Texts(vs))
    else Object(vs[|vs| - 1])
  }

  predicate Coherent(ps: seq<Piece>)
  {
    forall id :: id in FirstIds(ps) ==> AllText(Own(ps, id)) || AllObjects(Own(ps, id))
  }

  /** Reference: one call per id in order of first appearance, each from its own pieces only. */
  function Assemble(ps: seq<Piece>): seq<Tool>
    requires Coherent(ps)
  {
    var ids := FirstIds(ps);
    seq(|ids|, i requires 0 <= i < |ids| =>
      assert ids[i] in ids; Tool(ids[i], NameOf(ps, ids[i]), InputOf(Own(ps, ids[i]))))
  }

  /** The buffered calls are what the pieces so far assemble to. */
  predicate Assembled(tools: seq<Tool>, ps: seq<Piece>)
  {
    Coherent(ps) && tools == Assemble(ps)
  }

  /** What a fragment files, given the calls buffered before it. */
  function PieceOf(e: Env, b: Buffered, v: Json): Option<Piece>
  {
    var name, id, input := FragmentName(e, v), FragmentId(e, b, v), Get(Some(v), "input");
    if name == "" || id.None? then None
    else match Find(b.tools, id.value)
      case Some(k) =>
        if b.tools[k].name != name then None
        else Some(Piece(id.value, name, if Append(b.tools[k].input, input).Some? then input else None))
      case None => Some(Piece(id.value, name, if Append(NoInput, input).Some? then input else None))
  }

  lemma {:induction false} FirstIdsDistinct(ps: seq<Piece>)
    ensures forall i, j :: 0 <= i < j < |FirstIds(ps)| ==> FirstIds(ps)[i] != FirstIds(ps)[j]
  {
    if ps != [] {
      FirstIdsDistinct(ps[..|ps| - 1]);
    }
  }

  lemma {:induction false} OwnOfStranger(ps: seq<Piece>, id: string)
    requires id !in FirstIds(ps)
    ensures Own(ps, id) == []
  {
    if ps != [] {
      OwnOfStranger(ps[..|ps| - 1], id);
    }
  }

  lemma InputOfSnoc(vs: seq<Json>, v: Json)
    requires AllText(vs) || AllObjects(vs)
    requires Append(InputOf(vs), Some(v)).Some?
    ensures AllText(vs + [v]) || AllObjects(vs + [v])
    ensures InputOf(vs + [v]) == Append(InputOf(vs), Some(v)).value
  {
    if vs == [] {
      assert vs + [v] == [v];
    } else {
      assert vs[0] in vs;
    }
    if v.JStr? {
      assert AllText(vs + [v]);
      assert Texts(vs + [v]) == Texts(vs) + [v.s];
    } else {
      assert v in vs + [v];
    }
  }

  function Contribution(have: Input, v: Option<Json>): Input
    requires Append(have, v).Some?
  {
    Append(have, v).value
  }

  lemma SnocFacts(ps: seq<Piece>, p: Piece)
    ensures (ps + [p])[..|ps|] == ps
    ensures FirstIds(ps + [p]) == if p.id in FirstIds(ps) then FirstIds(ps) else FirstIds(ps) + [p.id]
    ensures forall id :: Own(ps + [p], id)
              == if p.id == id && p.input.Some? then Own(ps, id) + [p.input.value] else Own(ps, id)
    ensures forall id :: id in FirstIds(ps) ==> NameOf(ps + [p], id) == NameOf(ps, id)
    ensures p.id !in FirstIds(ps) ==> NameOf(ps + [p], p.id) == p.name
  {
    assert (ps + [p])[..|ps|] == ps;
  }

  lemma OwnSnoc(ps: seq<Piece>, p: Piece)
    requires Coherent(ps) && Append(InputOfId(ps, p.id), p.input).Some?
    ensures AllText(Own(ps + [p], p.id)) || AllObjects(Own(ps + [p], p.id))
    ensures InputOf(Own(ps + [p], p.id)) == Contribution(InputOfId(ps, p.id), p.input)
  {
    SnocFacts(ps, p);
    if p.id !in FirstIds(ps) {
      OwnOfStranger(ps, p.id);
    }
    if p.input.Some? {
      InputOfSnoc(Own(ps, p.id), p.input.value);
    }
  }

  /** The input the pieces give `id`, known or not. */
  function InputOfId(ps: seq<Piece>, id: string): Input
    requires Coherent(ps)
  {
    if id in FirstIds(ps) then InputOf(Own(ps, id)) else NoInput
  }

  lemma CoherentSnoc(ps: seq<Piece>, p: Piece)
    requires Coherent(ps) && Append(InputOfId(ps, p.id), p.input).Some?
    ensures Coherent(ps + [p])
  {
    SnocFacts(ps, p);
    OwnSnoc(ps, p);
  }

  /** Filing a piece under a known id changes that call alone. */
  lemma FiledAgain(tools: seq<Tool>, ps: seq<Piece>, p: Piece, k: nat)
    requires Assembled(tools, ps) && k < |tools| && tools[k].id == p.id && Append(tools[k].input, p.input).Some?
    ensures Assembled(tools[k := tools[k].(input := Contribution(tools[k].input, p.input))], ps + [p])
  {
    hide Append, InputOf, Own, NameOf;
    var ids := FirstIds(ps);
    assert ids[k] == p.id && p.id in ids;
    SnocFacts(ps, p);
    CoherentSnoc(ps, p);
    OwnSnoc(ps, p);
    FirstIdsDistinct(ps);
    var after := tools[k := tools[k].(input := Contribution(tools[k].input, p.input))];
    forall i | 0 <= i < |ids| ensures after[i] == Assemble(ps + [p])[i] {
      assert ids[i] in ids;
      assert i != k ==> ids[i] != p.id;
    }
  }

  lemma FiledFirst(tools: seq<Tool>, ps: seq<Piece>, p: Piece)
    requires Assembled(tools, ps) && Find(tools, p.id).None? && Append(NoInput, p.input).Some?
    ensures Assembled(tools + [Tool(p.id, p.name, Contribution(NoInput, p.input))], ps + [p])
  {
    hide Append, InputOf, Own, NameOf;
    var ids := FirstIds(ps);
    assert forall i :: 0 <= i < |ids| ==> tools[i].id == ids[i];
    assert p.id !in ids;
    SnocFacts(ps, p);
    CoherentSnoc(ps, p);
    OwnSnoc(ps, p);
    var after := tools + [Tool(p.id, p.name, Contribution(NoInput, p.input))];
    forall i | 0 <= i < |after| ensures after[i] == Assemble(ps + [p])[i] {
      if i < |ids| {
        assert ids[i] in ids && ids[i] != p.id;
      }
    }
  }

  function Filed(ps: seq<Piece>, p: Option<Piece>): seq<Piece>
  {
    if p.Some? then ps + [p.value] else ps
  }

  /** One fragment, whatever it looks like, files at most its own piece. */
  lemma FragmentAssembles(e: Env, b: Buffered, v: Json, ps: seq<Piece>)
    requires Assembled(b.tools, ps) && !AddFragment(e, b, v).1.Exceeded?
    ensures Assembled(AddFragment(e, b, v).0.tools, Filed(ps, PieceOf(e, b, v)))
  {
    hide Assembled, FragmentId, FragmentName, Growth;
    var name, id, input := FragmentName(e, v), FragmentId(e, b, v), Get(Some(v), "input");
    if name != "" && id.Some? {
      match Find(b.tools, id.value)
      case Some(k) =>
        if b.tools[k].name == name {
          FiledAgain(b.tools, ps, PieceOf(e, b, v).value, k);
          assert b.tools[k := b.tools[k]] == b.tools;
        }
      case None =>
        FiledFirst(b.tools, ps, PieceOf(e, b, v).value);
        var grown := b.tools + [Tool(id.value, name, NoInput)];
        assert forall t :: grown[|b.tools| := t] == b.tools + [t];
    }
  }

  /** The pieces filed so far, after the values of one more event. */
  function Pieces(e: Env, b: Buffered, vs: seq<Json>, ps: seq<Piece>): seq<Piece>
    decreases |vs|
  {
    if vs == [] then ps
    else
      var (b', o) := AddFragment(e, b, vs[0]);
      var now := Filed(ps, PieceOf(e, b, vs[0]));
      if o.Accepted? then Pieces(e, b', vs[1..], now) else now
  }

  lemma {:induction false} FragmentsAssemble(e: Env, b: Buffered, vs: seq<Json>, ps: seq<Piece>)
    requires Assembled(b.tools, ps) && !AddFragments(e, b, vs).1.Exceeded?
    ensures Assembled(AddFragments(e, b, vs).0.tools, Pieces(e, b, vs, ps))
    decreases |vs|
  {
    hide Assembled, AddFragment, PieceOf;
    if vs != [] {
      var (b', o) := AddFragment(e, b, vs[0]);
      FragmentAssembles(e, b, vs[0], ps);
      if o.Accepted? {
        FragmentsAssemble(e, b', vs[1..], Filed(ps, PieceOf(e, b, vs[0])));
      }
    }
  }

  // ----- runs of events -----

  /** Events in order until one of them ends the turn. */
  function RunEvents(e: Env, t: Turn, evs: seq<Event>): (Turn, bool)
    decreases |evs|
  {
    if evs == [] then (t, true)
    else
      var (t', go) := Step(e, t, evs[0]);
      if go then RunEvents(e, t', evs[1..]) else (t', false)
  }

  predicate FilesPieces(ev: Event)
  {
    var vs := FragmentValues(ev.payload);
    !UpstreamError(ev) && HeaderText(ev, ":event-type") == "toolUseEvent" && vs != [] && Truthy(Some(vs[0]))
  }

  /** All pieces filed by a run, in arrival order. */
  function RunPieces(e: Env, t: Turn, evs: seq<Event>, ps: seq<Piece>): seq<Piece>
    decreases |evs|
  {
    if evs == [] then ps
    else
      var now := if FilesPieces(evs[0]) then Pieces(e, t.buffered, FragmentValues(evs[0].payload), ps) else ps;
      RunPieces(e, Step(e, t, evs[0]).0, evs[1..], now)
  }

  lemma StepAssembles(e: Env, t: Turn, ev: Event, ps: seq<Piece>)
    requires Assembled(t.buffered.tools, ps) && Step(e, t, ev).1
    ensures Assembled(Step(e, t, ev).0.buffered.tools,
                      if FilesPieces(ev) then Pieces(e, t.buffered, FragmentValues(ev.payload), ps) else ps)
  {
    hide Assembled, AddFragments, Pieces, FragmentValues, ReportedReason, StopWith, Emit, FailWith;
    if FilesPieces(ev) {
      FragmentsAssemble(e, t.buffered, FragmentValues(ev.payload), ps);
    }
  }

  /** For every interleaving of fragments and other events, the buffer holds the assembled calls. */
  lemma {:induction false} RunAssembles(e: Env, t: Turn, evs: seq<Event>, ps: seq<Piece>)
    requires Assembled(t.buffered.tools, ps) && RunEvents(e, t, evs).1
    ensures Assembled(RunEvents(e, t, evs).0.buffered.tools, RunPieces(e, t, evs, ps))
    decreases |evs|
  {
    hide Assembled, Step, Pieces, FilesPieces, FragmentValues;
    if evs != [] {
      StepAssembles(e, t, evs[0], ps);
      var now := if FilesPieces(evs[0]) then Pieces(e, t.buffered, FragmentValues(evs[0].payload), ps) else ps;
      RunAssembles(e, Step(e, t, evs[0]).0, evs[1..], now);
    }
  }

  /**
   * The counter is exact at every point of every run, and never above the bound while reading goes on; reading stops
   * only above it or at an upstream error.
   */
  lemma {:induction false} RunCounted(e: Env, t: Turn, evs: seq<Event>)
    requires Counted(e, t.buffered) && t.buffered.bytes <= e.maxToolBytes
    ensures var (t', go) := RunEvents(e, t, evs);
            && Counted(e, t'.buffered) && (go ==> t'.buffered.bytes <= e.maxToolBytes)
            && (!go ==> t'.buffered.bytes > e.maxToolBytes || exists ev :: ev in evs && UpstreamError(ev))
    decreases |evs|
  {
    hide Counted, Step, UpstreamError;
    if evs != [] {
      StepCounted(e, t, evs[0]);
      assert evs[0] in evs && forall ev :: ev in evs[1..] ==> ev in evs;
      if Step(e, t, evs[0]).1 {
        RunCounted(e, Step(e, t, evs[0]).0, evs[1..]);
      }
    }
  }

  // ----- what the client receives -----

  datatype Call = Call(index: nat, id: string, name: string, arguments: string)

  /** A client files argument text under the call its chunk names. */
  function Receive(calls: seq<Call>, o: Out): seq<Call>
  {
    match o
    case Chunk(_, CallHead(n, id, name)) => calls + [Call(n, id, name, "")]
    case Chunk(_, CallArguments(n, text)) =>
      seq(|calls|, i requires 0 <= i < |calls| =>
        if calls[i].index == n then calls[i].(arguments := calls[i].arguments + text) else calls[i])
    case _ => calls
  }

  function Received(outs: seq<Out>): seq<Call>
  {
    if outs == [] then [] else Receive(Received(outs[..|outs| - 1]), outs[|outs| - 1])
  }

  /** The usable calls of a buffer, in order. */
  function UsableCalls(e: Env, tools: seq<Tool>): seq<(Tool, Json)>
  {
    if tools == [] then []
    else match Usable(e, tools[0])
      case None => UsableCalls(e, tools[1..])
      case Some(input) => [(tools[0], input)] + UsableCalls(e, tools[1..])
  }

  /** Numbered from `from` without gaps. */
  function Numbered(e: Env, from: nat, us: seq<(Tool, Json)>): seq<Call>
  {
    seq(|us|, i requires 0 <= i < |us| =>
      Call(from + i, us[i].0.id, e.rename(us[i].0.name), e.show(us[i].1)))
  }

  predicate Below(calls: seq<Call>, n: nat)
  {
    forall c :: c in calls ==> c.index < n
  }

  lemma ReceivedCall(e: Env, k: Sink, tool: Tool, input: Json)
    requires Below(Received(k.outs), k.toolCounter)
    ensures var k' := EmitCall(e, k, tool, input);
            && Received(k'.outs) == Received(k.outs)
                 + [Call(k.toolCounter, tool.id, e.rename(tool.name), e.show(input))]
            && k'.toolCounter == k.toolCounter + 1
            && Below(Received(k'.outs), k'.toolCounter)
  {
    var n := k.toolCounter;
    var k1 := Emit(k, CallHead(n, tool.id, e.rename(tool.name)));
    var k2 := Emit(k1, CallArguments(n, e.show(input)));
    assert k1.outs[..|k.outs|] == k.outs && k2.outs[..|k1.outs|] == k1.outs;
    var calls := Received(k.outs);
    var r1 := Received(k1.outs);
    assert r1 == calls + [Call(n, tool.id, e.rename(tool.name), "")];
    forall i | 0 <= i < |calls| ensures Received(k2.outs)[i] == calls[i] {
      assert calls[i] in calls;
    }
    assert "" + e.show(input) == e.show(input);
    assert Received(k2.outs) == calls + [Call(n, tool.id, e.rename(tool.name), e.show(input))];
  }

  /** emitTools delivers exactly the usable calls, in buffer order, numbered consecutively. */
  lemma {:induction false} EmitToolsDelivers(e: Env, k: Sink, tools: seq<Tool>)
    requires Below(Received(k.outs), k.toolCounter)
    ensures Received(EmitTools(e, k, tools).outs)
         == Received(k.outs) + Numbered(e, k.toolCounter, UsableCalls(e, tools))
    decreases |tools|
  {
    hide Usable, EmitCall, Received;
    if tools != [] {
      match Usable(e, tools[0])
      case None => EmitToolsDelivers(e, k, tools[1..]);
      case Some(input) =>
        ReceivedCall(e, k, tools[0], input);
        var k' := EmitCall(e, k, tools[0], input);
        EmitToolsDelivers(e, k', tools[1..]);
        var us := UsableCalls(e, tools[1..]);
        assert Numbered(e, k.toolCounter, [(tools[0], input)] + us)
            == [Call(k.toolCounter, tools[0].id, e.rename(tools[0].name), e.show(input))]
              + Numbered(e, k.toolCounter + 1, us);
    }
  }

  /** Dropping an unusable call changes no other call. */
  lemma {:induction false} UnusableIsSkipped(e: Env, a: seq<Tool>, bad: Tool, b: seq<Tool>)
    requires Usable(e, bad).None?
    ensures UsableCalls(e, a + [bad] + b) == UsableCalls(e, a + b)
    decreases |a|
  {
    hide Usable;
    if a == [] {
      assert (a + [bad] + b)[1..] == b && a + b == b;
    } else {
      assert (a + [bad] + b)[1..] == a[1..] + [bad] + b;
      assert (a + b)[1..] == a[1..] + b;
      UnusableIsSkipped(e, a[1..], bad, b);
    }
  }

  predicate NoCalls(outs: seq<Out>)
  {
    forall o :: o in outs ==> o.Chunk? && (o.delta.Content? || o.delta.Reasoning?)
  }

  lemma {:induction false} NothingReceived(outs: seq<Out>)
    requires NoCalls(outs)
    ensures Received(outs) == []
  {
    if outs != [] {
      assert outs[|outs| - 1] in outs;
      assert forall o :: o in outs[..|outs| - 1] ==> o in outs;
      NothingReceived(outs[..|outs| - 1]);
    }
  }

  lemma StepMakesNoCalls(e: Env, t: Turn, ev: Event)
    requires NoCalls(t.sink.outs) && t.sink.toolCounter == 0 && Step(e, t, ev).1
    ensures var k := Step(e, t, ev).0.sink; NoCalls(k.outs) && k.toolCounter == 0
  {
    hide ToolUseEvent, ReportedReason, StopWith, FailWith;
  }

  lemma {:induction false} RunMakesNoCalls(e: Env, t: Turn, evs: seq<Event>)
    requires NoCalls(t.sink.outs) && t.sink.toolCounter == 0 && RunEvents(e, t, evs).1
    ensures var k := RunEvents(e, t, evs).0.sink; NoCalls(k.outs) && k.toolCounter == 0
    decreases |evs|
  {
    hide Step, NoCalls;
    if evs != [] {
      StepMakesNoCalls(e, t, evs[0]);
      RunMakesNoCalls(e, Step(e, t, evs[0]).0, evs[1..]);
    }
  }

  lemma ReceivedSnoc(outs: seq<Out>, o: Out)
    ensures Received(outs + [o]) == Receive(Received(outs), o)
  {
    assert (outs + [o])[..|outs|] == outs;
  }

  lemma CloseDeliversNothingNew(t: Turn)
    ensures Received(Close(t).sink.outs) == Received(t.sink.outs)
  {
    hide Received, StopDisposition;
    var d := StopDisposition(t.stop.reason, t.seen.toolCalls);
    var outs := t.sink.outs;
    forall o: Out | o.Error? || o.Finish? ensures Received(outs + [o]) == Received(outs) { ReceivedSnoc(outs, o); }
    ReceivedSnoc(outs + [Finish(FinishReason(t, d))], Done);
    assert outs + [Finish(FinishReason(t, d)), Done] == outs + [Finish(FinishReason(t, d))] + [Done];
  }

  /**
   * The calls a client receives from a successful turn are the usable ones among the assembled calls:
   * in order of first appearance, numbered 0, 1, 2, ..., each made of its own fragments only.
   */
  lemma DeliveredCalls(e: Env, evs: seq<Event>)
    requires RunEvents(e, START, evs).1
    requires var f := FinishTurn(e, RunEvents(e, START, evs).0, []).sink; f.outs != [] && f.outs[|f.outs| - 1].Done?
    ensures var ps := RunPieces(e, START, evs, []);
            && Coherent(ps)
            && Received(FinishTurn(e, RunEvents(e, START, evs).0, []).sink.outs)
               == Numbered(e, 0, UsableCalls(e, Assemble(ps)))
  {
    hide RunEvents, RunPieces, Step, FinishTurn, UsableCalls, Received, Numbered;
    var t := RunEvents(e, START, evs).0;
    var ps := RunPieces(e, START, evs, []);
    assert Assembled(START.buffered.tools, []) by { assert Assemble([]) == []; }
    RunAssembles(e, START, evs, []);
    RunMakesNoCalls(e, START, evs);
    assert t.buffered.tools == Assemble(ps) && Coherent(ps);
    DeliveredAtFinish(e, t);
  }

  lemma DeliveredAtFinish(e: Env, t: Turn)
    requires NoCalls(t.sink.outs) && t.sink.toolCounter == 0
    requires var f := FinishTurn(e, t, []).sink; f.outs != [] && f.outs[|f.outs| - 1].Done?
    ensures Received(FinishTurn(e, t, []).sink.outs) == Numbered(e, 0, UsableCalls(e, t.buffered.tools))
  {
    hide Close, StopDisposition, EmitTools, UsableCalls, AnyUsable, AnyUnusable, Received, Numbered;
    NothingReceived(t.sink.outs);
    EmitToolsDelivers(e, t.sink, t.buffered.tools);
    CloseDeliversNothingNew(AfterTools(e, t.(transport := "clean_eof")));
    assert t.sink.outs != [] ==> t.sink.outs[|t.sink.outs| - 1] in t.sink.outs;
    assert [] + Numbered(e, 0, UsableCalls(e, t.buffered.tools)) == Numbered(e, 0, UsableCalls(e, t.buffered.tools));
  }
}
