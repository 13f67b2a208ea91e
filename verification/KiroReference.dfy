/**
 * What a Kiro response means, read off its events: the narration, the tool calls and the stop reasons it carries.
 * Nothing here refers to the turn machine; `KiroLaws` proves that the machine sends exactly this.
 */
module KiroReference {
  import opened Bytes
  import opened Json
  import opened EventStream
  import opened KiroTurn
  import opened KiroTools

  predicate Is(ev: Event, kind: string)
  {
    ":event-type" in ev.headers && ev.headers[":event-type"] == HText(kind)
  }

  /** An upstream error or exception. */
  predicate Fatal(ev: Event)
  {
    ":message-type" in ev.headers
    && (ev.headers[":message-type"] == HText("error") || ev.headers[":message-type"] == HText("exception"))
  }

  // ----- text and reasoning -----

  /** The narrator: inside a thinking tag, has reasoned, has said something, and the deltas so far. */
  datatype Narrator = Narrator(inside: bool, reasoned: bool, spoke: bool, deltas: seq<Delta>)

  const SILENT := Narrator(false, false, false, [])

  /** A string payload speaks for itself; otherwise its text, or else its content, does. */
  function ReasoningText(payload: Option<Json>): Option<Json>
  {
    var wrapped := Get(payload, "reasoningContentEvent");
    var v := if Truthy(wrapped) then wrapped else payload;
    match v
    case Some(JStr(_)) => v
    case _ => if Truthy(Get(v, "text")) then Get(v, "text") else Get(v, "content")
  }

  /** One event: assistant text without its thinking parts, reasoning, or code, each as one delta. */
  function Tell(e: Env, n: Narrator, ev: Event): Narrator
  {
    if Is(ev, "assistantResponseEvent") then
      match Get(ev.payload, "content")
      case Some(JStr(s)) =>
        var (inside, visible) := e.strip(n.inside, s);
        Narrator(inside, n.reasoned, n.spoke || visible != "",
                 if visible == "" && n.reasoned then n.deltas else n.deltas + [Content(visible)])
      case _ => n
    else if Is(ev, "reasoningContentEvent") then
      var text := ReasoningText(ev.payload);
      if Truthy(text) then Narrator(n.inside, true, true, n.deltas + [Reasoning(text.value)]) else n
    else if Is(ev, "codeEvent") then
      match Get(ev.payload, "content")
      case Some(JStr(s)) => n.(spoke := true, deltas := n.deltas + [Content(s)])
      case _ => n
    else n
  }

  function TellAll(e: Env, n: Narrator, evs: seq<Event>): Narrator
    decreases |evs|
  {
    if evs == [] then n else TellAll(e, Tell(e, n, evs[0]), evs[1..])
  }

  // ----- tool calls -----

  /** An input fits the inputs before it when all are strings or all are objects. */
  function Fitting(own: seq<Json>, input: Option<Json>): Option<Json>
  {
    match input
    case Some(JStr(_)) => if AllText(own) then input else None
    case Some(JObj(_)) => if AllObjects(own) then input else None
    case _ => None
  }

  /** What one fragment files: its id, its name, and its input if that fits; nothing without a name or usable id. */
  function FiledBy(e: Env, ps: seq<Piece>, v: Json): Option<Piece>
  {
    var name := match Get(Some(v), "name") case Some(JStr(s)) => e.trim(s) case _ => "";
    var id := match Get(Some(v), "toolUseId")
      case None => Some(e.freshId(|FirstIds(ps)| + 1))
      case Some(JNull) => Some(e.freshId(|FirstIds(ps)| + 1))
      case Some(JStr(s)) => if e.trim(s) == "" then None else Some(s)
      case _ => None;
    if name == "" || id.None? || (id.value in FirstIds(ps) && NameOf(ps, id.value) != name) then None
    else Some(Piece(id.value, name, Fitting(Own(ps, id.value), Get(Some(v), "input"))))
  }

  /** Nothing of the fragment was refused. */
  predicate Taken(e: Env, ps: seq<Piece>, v: Json)
  {
    var p := FiledBy(e, ps, v);
    p.Some? && (Get(Some(v), "input") == None || p.value.input.Some?)
  }

  /** The fragments of one event; the first one refused ends it. */
  function FiledByAll(e: Env, ps: seq<Piece>, vs: seq<Json>): seq<Piece>
    decreases |vs|
  {
    if vs == [] then ps
    else
      var p := FiledBy(e, ps, vs[0]);
      var now := if p.Some? then ps + [p.value] else ps;
      if Taken(e, ps, vs[0]) then FiledByAll(e, now, vs[1..]) else now
  }

  function EventPieces(e: Env, ps: seq<Piece>, ev: Event): seq<Piece>
  {
    if !Is(ev, "toolUseEvent") then ps
    else match ev.payload
      case Some(JArr(vs)) => if vs == [] || !Truthy(Some(vs[0])) then ps else FiledByAll(e, ps, vs)
      case Some(v) => if Truthy(Some(v)) then FiledByAll(e, ps, [v]) else ps
      case None => ps
  }

  function AllPieces(e: Env, ps: seq<Piece>, evs: seq<Event>): seq<Piece>
    decreases |evs|
  {
    if evs == [] then ps else AllPieces(e, EventPieces(e, ps, evs[0]), evs[1..])
  }

  predicate AllTaken(e: Env, ps: seq<Piece>, vs: seq<Json>)
    decreases |vs|
  {
    vs == [] || (Taken(e, ps, vs[0]) && AllTaken(e, ps + [FiledBy(e, ps, vs[0]).value], vs[1..]))
  }

  /** Something of the event was refused. */
  predicate Refused(e: Env, ps: seq<Piece>, ev: Event)
  {
    Is(ev, "toolUseEvent")
    && match ev.payload {
         case Some(JArr(vs)) => vs == [] || !Truthy(Some(vs[0])) || !AllTaken(e, ps, vs)
         case Some(v) => !Truthy(Some(v)) || !AllTaken(e, ps, [v])
         case None => true
       }
  }

  predicate AnyRefused(e: Env, ps: seq<Piece>, evs: seq<Event>)
    decreases |evs|
  {
    evs != [] && (Refused(e, ps, evs[0]) || AnyRefused(e, EventPieces(e, ps, evs[0]), evs[1..]))
  }

  /** The arguments the inputs filed under one id amount to: the joined strings parsed, or the last object. */
  function Argument(e: Env, own: seq<Json>): Option<Json>
  {
    if own == [] then None
    else if AllText(own) then e.codec.json(Concat(Texts(own)))
    else Some(own[|own| - 1])
  }

  /** A call goes out with an object; the generic "tool_call" must name a tool and carry its arguments. */
  predicate Deliverable(e: Env, name: string, arg: Option<Json>)
  {
    && arg.Some? && arg.value.JObj?
    && (name == "tool_call" ==>
          && "arguments" in arg.value.fields
          && match Get(arg, "name") { case Some(JStr(s)) => e.trim(s) != "" case _ => false })
  }

  /** The calls owed to the client for these ids, numbered from `from`. */
  function Owed(e: Env, ps: seq<Piece>, ids: seq<string>, from: nat): seq<Call>
    decreases |ids|
  {
    if ids == [] then []
    else
      var id, arg := ids[0], Argument(e, Own(ps, ids[0]));
      if Deliverable(e, NameOf(ps, id), arg)
      then [Call(from, id, e.rename(NameOf(ps, id)), e.show(arg.value))] + Owed(e, ps, ids[1..], from + 1)
      else Owed(e, ps, ids[1..], from)
  }

  // ----- stop reasons -----

  /** A reported reason under its canonical name. */
  function ReasonNamed(e: Env, v: Option<Json>): Option<string>
  {
    if !Truthy(v) || e.clean(v.value) == "" then None
    else
      var r := e.clean(v.value);
      Some(if r in {"endturn", "end_turn", "stop", "stop_sequence"} then "end_turn"
           else if r in {"tooluse", "tool_use", "tool_calls"} then "tool_use"
           else if r in {"maxtokens", "max_tokens", "max_output_tokens", "length"} then "max_tokens"
           else r)
  }

  function ReasonField(v: Option<Json>): Option<Json>
  {
    var camel := Get(v, "stopReason");
    if camel == None || camel == Some(JNull) then Get(v, "stop_reason") else camel
  }

  /** A stop event always gives a reason, metadata gives one if it carries one. */
  function ReasonFrom(e: Env, sawTool: bool, ev: Event): Option<string>
  {
    if Is(ev, "messageStopEvent") then
      var r := ReasonNamed(e, ReasonField(ev.payload));
      if r.Some? then r else Some(if sawTool then "tool_use" else "end_turn")
    else if Is(ev, "metadataEvent") || Is(ev, "MetadataEvent") then
      var inner := Get(ev.payload, "metadataEvent");
      var plain := Get(ev.payload, "metadata");
      ReasonNamed(e, ReasonField(if Truthy(inner) then inner else if Truthy(plain) then plain else ev.payload))
    else None
  }

  function ReasonsFrom(e: Env, sawTool: bool, evs: seq<Event>): seq<string>
    decreases |evs|
  {
    if evs == [] then []
    else
      var r := ReasonFrom(e, sawTool, evs[0]);
      (if r.Some? then [r.value] else []) + ReasonsFrom(e, sawTool || Is(evs[0], "toolUseEvent"), evs[1..])
  }

  // ----- what is owed, call by call -----

  lemma {:induction false} OwedIndices(e: Env, ps: seq<Piece>, ids: seq<string>, from: nat)
    ensures forall i :: 0 <= i < |Owed(e, ps, ids, from)| ==> Owed(e, ps, ids, from)[i].index == from + i
    decreases |ids|
  {
    hide Argument, Deliverable, Own, NameOf;
    if ids != [] {
      OwedIndices(e, ps, ids[1..], from);
      OwedIndices(e, ps, ids[1..], from + 1);
    }
  }

  /** Call `id` is at place `k` and nowhere else. */
  predicate OnlyAt(calls: seq<Call>, k: nat, id: string, name: string, arguments: string)
  {
    && k < |calls| && calls[k].id == id && calls[k].name == name && calls[k].arguments == arguments
    && forall j :: 0 <= j < |calls| && calls[j].id == id ==> j == k
  }

  predicate Absent(calls: seq<Call>, id: string)
  {
    forall j :: 0 <= j < |calls| ==> calls[j].id != id
  }

  lemma OneMore(c: Call, rest: seq<Call>, id: string)
    ensures Absent([c] + rest, id) <==> c.id != id && Absent(rest, id)
    ensures c.id == id && Absent(rest, id) ==> OnlyAt([c] + rest, 0, id, c.name, c.arguments)
  {
    var calls := [c] + rest;
    assert calls[0] == c && forall j :: 0 < j < |calls| ==> calls[j] == rest[j - 1];
    assert forall j :: 0 <= j < |rest| ==> rest[j] == calls[j + 1];
  }

  lemma Shifted(c: Call, rest: seq<Call>, k: nat, id: string, name: string, arguments: string)
    requires c.id != id && OnlyAt(rest, k, id, name, arguments)
    ensures OnlyAt([c] + rest, k + 1, id, name, arguments)
  {
    var calls := [c] + rest;
    assert forall j :: 0 < j < |calls| ==> calls[j] == rest[j - 1];
  }

  /** Exactly one call per deliverable id, with the name and the arguments of its own pieces; none for the others. */
  lemma {:induction false} OwedExactly(e: Env, ps: seq<Piece>, ids: seq<string>, from: nat, id: string)
    requires forall i, j :: 0 <= i < j < |ids| ==> ids[i] != ids[j]
    ensures var arg := Argument(e, Own(ps, id));
            if id in ids && Deliverable(e, NameOf(ps, id), arg)
            then exists k: nat :: OnlyAt(Owed(e, ps, ids, from), k, id, e.rename(NameOf(ps, id)), e.show(arg.value))
            else Absent(Owed(e, ps, ids, from), id)
    decreases |ids|
  {
    hide Argument, Own, NameOf, OnlyAt, Absent;
    if ids == [] {
      NobodyOwed(id);
    } else {
      var tail, arg := ids[1..], Argument(e, Own(ps, id));
      assert forall i :: 0 <= i < |tail| ==> tail[i] == ids[i + 1];
      assert ids[0] !in tail && (id in ids <==> id == ids[0] || id in tail);
      var headArg := Argument(e, Own(ps, ids[0]));
      if Deliverable(e, NameOf(ps, ids[0]), headArg) {
        var rest := Owed(e, ps, tail, from + 1);
        OwedExactly(e, ps, tail, from + 1, id);
        var c := Call(from, ids[0], e.rename(NameOf(ps, ids[0])), e.show(headArg.value));
        assert Owed(e, ps, ids, from) == [c] + rest;
        OneMore(c, rest, id);
        if id != ids[0] && id in tail && Deliverable(e, NameOf(ps, id), arg) {
          var k: nat :| OnlyAt(rest, k, id, e.rename(NameOf(ps, id)), e.show(arg.value));
          Shifted(c, rest, k, id, e.rename(NameOf(ps, id)), e.show(arg.value));
        }
      } else {
        OwedExactly(e, ps, tail, from, id);
        assert Owed(e, ps, ids, from) == Owed(e, ps, tail, from);
      }
    }
  }

  lemma NobodyOwed(id: string)
    ensures Absent([], id)
  {
  }
}
