/** Grok CLI turn numbers: a bounded, least-recently-touched session store and a per-request memo. */
module GrokTurns {
  import opened Bytes
  import opened Json

  const MAX_SESSIONS: nat := 5000
  const TTL_MS: int := 2 * 60 * 60 * 1000

  type Request = nat

  datatype Entry = Entry(session: string, turn: nat, lastUsed: int)

  /** `entries` in touch order, oldest first; `requests` remembers the turn of each request object. */
  datatype Store = Store(entries: seq<Entry>, requests: map<Request, nat>)

  // ----- counting user turns -----

  predicate UserTurn(item: Json)
  {
    var kind := Get(Some(item), "type");
    Get(Some(item), "role") == Some(JStr("user")) && (!IsText(kind) || kind.value.s == "" || kind.value.s == "message")
  }

  function UserTurns(items: seq<Json>): nat
  {
    if items == [] then 0 else UserTurns(items[..|items| - 1]) + (if UserTurn(items[|items| - 1]) then 1 else 0)
  }

  /** Input that is not an array counts as one turn. */
  function CountTurns(input: Option<seq<Json>>): (n: nat)
    ensures n >= 1
  {
    if input.None? || UserTurns(input.value) == 0 then 1 else UserTurns(input.value)
  }

  method CountUserTurns(input: Option<seq<Json>>) returns (n: nat)
    ensures n == CountTurns(input)
  {
    if input.None? {
      return 1;
    }
    var items := input.value;
    n := 0;
    for i := 0 to |items|
      invariant n == UserTurns(items[..i])
    {
      assert items[..i + 1][..i] == items[..i];
      if UserTurn(items[i]) {
        n := n + 1;
      }
    }
    assert items[..|items|] == items;
    if n < 1 {
      n := 1;
    }
  }

  /** An input item that opens a turn: an object with role user whose type is absent, no text, empty or "message". */
  predicate OpensTurn(item: Json)
  {
    match item
    case JObj(f) =>
      && "role" in f && f["role"] == JStr("user")
      && ("type" in f && f["type"].JStr? ==> f["type"].s == "" || f["type"].s == "message")
    case _ => false
  }

  function TurnPositions(items: seq<Json>): set<nat>
  {
    set i: nat | i < |items| && OpensTurn(items[i])
  }

  lemma {:induction false} TurnsAreCounted(items: seq<Json>)
    ensures UserTurns(items) == |TurnPositions(items)|
  {
    if items == [] {
      assert TurnPositions(items) == {};
    } else {
      var n := |items| - 1;
      TurnsAreCounted(items[..n]);
      assert UserTurn(items[n]) <==> OpensTurn(items[n]);
      assert TurnPositions(items) == TurnPositions(items[..n]) + if OpensTurn(items[n]) then {n} else {};
    }
  }

  /** The input's own turn: the number of items that open one, and at least 1. */
  lemma InputTurn(input: Option<seq<Json>>)
    ensures var opening := if input.Some? then TurnPositions(input.value) else {};
            CountTurns(input) == if opening == {} then 1 else |opening|
  {
    if input.Some? {
      TurnsAreCounted(input.value);
    }
  }

  // ----- one resolution -----

  function IndexOf(es: seq<Entry>, s: string): (r: Option<nat>)
    ensures r.Some? ==> r.value < |es| && es[r.value].session == s
    ensures r.None? ==> forall i :: 0 <= i < |es| ==> es[i].session != s
  {
    if es == [] then None
    else if es[0].session == s then Some(0)
    else match IndexOf(es[1..], s)
      case None => None
      case Some(k) => Some(k + 1)
  }

  function Without(es: seq<Entry>, s: string): seq<Entry>
  {
    match IndexOf(es, s)
    case None => es
    case Some(k) => es[..k] + es[k + 1..]
  }

  /** The newest entries that leave room for one more. */
  function Trimmed(es: seq<Entry>): seq<Entry>
  {
    if |es| < MAX_SESSIONS then es else es[|es| - MAX_SESSIONS + 1..]
  }

  /** The turn to build on: none once the entry has expired. */
  function Previous(es: seq<Entry>, s: string, now: int): nat
  {
    match IndexOf(es, s)
    case None => 0
    case Some(k) => if now - es[k].lastUsed <= TTL_MS then es[k].turn else 0
  }

  function NextTurn(previous: nat, fromInput: nat, isRequest: bool): nat
  {
    var floor := previous + (if isRequest then 1 else 0);
    if previous > 0 && floor > fromInput then floor else fromInput
  }

  datatype Touch = Touch(session: string, fromInput: nat, request: Option<Request>, now: int)

  predicate Remembered(st: Store, t: Touch)
  {
    t.request.Some? && t.request.value in st.requests
  }

  function TurnOf(st: Store, t: Touch): nat
  {
    if Remembered(st, t) then st.requests[t.request.value]
    else NextTurn(Previous(st.entries, t.session, t.now), t.fromInput, t.request.Some?)
  }

  function After(st: Store, t: Touch): Store
  {
    if Remembered(st, t) then st
    else
      var turn := TurnOf(st, t);
      Store(Trimmed(Without(st.entries, t.session)) + [Entry(t.session, turn, t.now)],
            if t.request.Some? then st.requests[t.request.value := turn] else st.requests)
  }

  class TurnStore {
    var entries: seq<Entry>
    var requests: map<Request, nat>

    ghost function View(): Store
      reads this
    {
      Store(entries, requests)
    }

    constructor ()
      ensures View() == Store([], map[])
    {
      entries, requests := [], map[];
    }

    method MakeRoom()
      modifies this`entries
      ensures entries == Trimmed(old(entries))
    {
      while |entries| >= MAX_SESSIONS
        invariant Trimmed(entries) == Trimmed(old(entries))
      {
        entries := entries[1..];
      }
    }

    /** resolveGrokCliTurnIdx. An empty session id bypasses the store. */
    method Resolve(session: string, input: Option<seq<Json>>, request: Option<Request>, now: int) returns (turn: nat)
      modifies this
      ensures session == "" ==> turn == CountTurns(input) && View() == old(View())
      ensures session != "" ==>
                var t := Touch(session, CountTurns(input), request, now);
                turn == TurnOf(old(View()), t) && View() == After(old(View()), t)
    {
      hide IndexOf, CountTurns, NextTurn, Trimmed;
      var fromInput := CountUserTurns(input);
      if session == "" {
        return fromInput;
      }
      if request.Some? && request.value in requests {
        return requests[request.value];
      }
      var k := IndexOf(entries, session);
      var previous := if k.Some? && now - entries[k.value].lastUsed <= TTL_MS then entries[k.value].turn else 0;
      if k.Some? {
        entries := entries[..k.value] + entries[k.value + 1..];
      }
      turn := NextTurn(previous, fromInput, request.Some?);
      MakeRoom();
      entries := entries + [Entry(session, turn, now)];
      if request.Some? {
        requests := requests[request.value := turn];
      }
    }
  }

  // ----- invariants -----

  predicate Valid(st: Store)
  {
    && |st.entries| <= MAX_SESSIONS
    && Distinct(st.entries)
    && Positive(st.entries)
  }

  function Sessions(es: seq<Entry>): set<string>
  {
    set i | 0 <= i < |es| :: es[i].session
  }

  function Newer(es: seq<Entry>, k: nat): set<string>
  {
    set i | k < i < |es| :: es[i].session
  }

  predicate Distinct(es: seq<Entry>)
  {
    forall i, j :: 0 <= i < j < |es| ==> es[i].session != es[j].session
  }

  lemma IndexUnique(es: seq<Entry>, k: nat)
    requires Distinct(es) && k < |es|
    ensures IndexOf(es, es[k].session) == Some(k)
  {
  }

  predicate Positive(es: seq<Entry>)
  {
    forall i :: 0 <= i < |es| ==> es[i].turn >= 1
  }

  lemma WithoutIsClean(es: seq<Entry>, s: string)
    requires Distinct(es) && Positive(es)
    ensures var w := Without(es, s); Distinct(w) && Positive(w) && s !in Sessions(w) && |w| <= |es|
  {
    hide IndexOf;
  }

  lemma TrimmedIsClean(es: seq<Entry>, s: string)
    requires Distinct(es) && Positive(es) && s !in Sessions(es)
    ensures var t := Trimmed(es); Distinct(t) && Positive(t) && s !in Sessions(t) && |t| < MAX_SESSIONS
  {
  }

  lemma PushIsClean(es: seq<Entry>, e: Entry)
    requires Distinct(es) && Positive(es) && e.session !in Sessions(es) && e.turn >= 1
    ensures Distinct(es + [e]) && Positive(es + [e])
  {
    forall i | 0 <= i < |es| ensures es[i].session != e.session {
      assert es[i].session in Sessions(es);
    }
  }

  lemma PreviousIsKnown(es: seq<Entry>, s: string, now: int, fromInput: nat, isRequest: bool)
    requires fromInput >= 1
    ensures NextTurn(Previous(es, s, now), fromInput, isRequest) >= 1
  {
  }

  /** Every resolution keeps at most MAX_SESSIONS distinct sessions and positive turns. */
  lemma TouchKeepsValid(st: Store, t: Touch)
    requires Valid(st) && t.fromInput >= 1
    ensures Valid(After(st, t)) && TurnOfStored(st, t)
  {
    hide IndexOf, Without, Trimmed, Previous, NextTurn, Sessions;
    if !Remembered(st, t) {
      var w := Without(st.entries, t.session);
      WithoutIsClean(st.entries, t.session);
      TrimmedIsClean(w, t.session);
      PreviousIsKnown(st.entries, t.session, t.now, t.fromInput, t.request.Some?);
      PushIsClean(Trimmed(w), Entry(t.session, TurnOf(st, t), t.now));
    }
  }

  /** A resolution that reaches the store leaves the session there, newest, with the turn it returned. */
  predicate TurnOfStored(st: Store, t: Touch)
  {
    var es := After(st, t).entries;
    !Remembered(st, t) ==> es != [] && es[|es| - 1] == Entry(t.session, TurnOf(st, t), t.now)
  }

  lemma MovedToEnd(es: seq<Entry>, k: nat, e: Entry)
    requires k < |es| && e.session == es[k].session
    ensures Sessions(es[..k] + es[k + 1..] + [e]) == Sessions(es)
  {
    var moved := es[..k] + es[k + 1..] + [e];
    forall s | s in Sessions(es) ensures s in Sessions(moved) {
      var i :| 0 <= i < |es| && es[i].session == s;
      assert moved[if i < k then i else if i == k then |es| - 1 else i - 1].session == s;
    }
    forall s | s in Sessions(moved) ensures s in Sessions(es) {
      var i :| 0 <= i < |moved| && moved[i].session == s;
      assert es[if i < k then i else if i == |es| - 1 then k else i + 1].session == s;
    }
  }

  /** Touching a stored session evicts nobody. */
  lemma TouchingStoredEvictsNobody(st: Store, t: Touch)
    requires Valid(st) && t.session in Sessions(st.entries)
    ensures Sessions(After(st, t).entries) == Sessions(st.entries)
  {
    hide IndexOf, Distinct, Positive, Previous, NextTurn;
    if !Remembered(st, t) {
      var k := IndexOf(st.entries, t.session).value;
      MovedToEnd(st.entries, k, Entry(t.session, TurnOf(st, t), t.now));
    }
  }

  /** A first or expired touch is given the input's count. */
  lemma FreshTurn(st: Store, t: Touch)
    requires !Remembered(st, t)
    requires forall i :: 0 <= i < |st.entries| && st.entries[i].session == t.session ==>
               t.now - st.entries[i].lastUsed > TTL_MS
    ensures TurnOf(st, t) == t.fromInput
  {
  }

  /** An unexpired one the larger of that count and the previous turn, plus one for a new request object. */
  lemma NextTurnIs(st: Store, t: Touch, i: nat)
    requires Valid(st) && !Remembered(st, t) && i < |st.entries| && st.entries[i].session == t.session
    requires t.now - st.entries[i].lastUsed <= TTL_MS
    ensures var next := st.entries[i].turn + if t.request.Some? then 1 else 0;
            TurnOf(st, t) == if next > t.fromInput then next else t.fromInput
  {
    IndexUnique(st.entries, i);
  }

  // ----- runs -----

  function AfterAll(st: Store, ts: seq<Touch>): Store
    decreases |ts|
  {
    if ts == [] then st else AfterAll(After(st, ts[0]), ts[1..])
  }

  predicate Wellformed(ts: seq<Touch>)
  {
    forall t :: t in ts ==> t.fromInput >= 1 && t.session != ""
  }

  /** The other sessions a run touches. */
  function Others(ts: seq<Touch>, s: string): set<string>
  {
    set t | t in ts && t.session != s :: t.session
  }

  lemma {:induction false} RunsStayValid(st: Store, ts: seq<Touch>)
    requires Valid(st) && Wellformed(ts)
    ensures Valid(AfterAll(st, ts))
    decreases |ts|
  {
    if ts != [] {
      hide Valid, After;
      assert ts[0] in ts && forall u :: u in ts[1..] ==> u in ts;
      TouchKeepsValid(st, ts[0]);
      RunsStayValid(After(st, ts[0]), ts[1..]);
    }
  }

  /** After every run from the empty store at most MAX_SESSIONS distinct sessions are kept, with positive turns. */
  lemma EveryRunIsBounded(ts: seq<Touch>)
    requires Wellformed(ts)
    ensures Valid(AfterAll(Store([], map[]), ts)) && |AfterAll(Store([], map[]), ts).entries| <= MAX_SESSIONS
  {
    RunsStayValid(Store([], map[]), ts);
  }

  /** `s` is stored, at least at `turn`, and everything newer than it is in `newer`. */
  predicate Alive(st: Store, s: string, turn: nat, newer: set<string>)
  {
    var k := IndexOf(st.entries, s);
    k.Some? && st.entries[k.value].turn >= turn && Newer(st.entries, k.value) <= newer
  }

  /** Whenever the run touches `s`, its entry has not expired. */
  predicate Unexpired(st: Store, ts: seq<Touch>, s: string)
    decreases |ts|
  {
    ts == [] ||
    (&& (ts[0].session == s ==> Previous(st.entries, s, ts[0].now) > 0)
     && Unexpired(After(st, ts[0]), ts[1..], s))
  }

  lemma {:induction false} NewerCount(es: seq<Entry>, k: nat)
    requires Distinct(es) && k < |es|
    ensures |Newer(es, k)| == |es| - 1 - k
    decreases |es| - k
  {
    if k == |es| - 1 {
      assert Newer(es, k) == {};
    } else {
      NewerCount(es, k + 1);
      assert Newer(es, k) == Newer(es, k + 1) + {es[k + 1].session};
      assert es[k + 1].session !in Newer(es, k + 1);
    }
  }

  lemma SubsetCard(a: set<string>, b: set<string>)
    requires a <= b
    ensures |a| <= |b|
  {
    assert b == a + (b - a);
  }

  lemma RemovedAt(es: seq<Entry>, k: nat, m: nat)
    requires Distinct(es) && k < |es| && m < |es| && k != m
    ensures var w := es[..m] + es[m + 1..]; var j := if k < m then k else k - 1;
            Distinct(w) && w[j] == es[k] && Newer(w, j) <= Newer(es, k) - {es[m].session}
  {
    var w, j := es[..m] + es[m + 1..], if k < m then k else k - 1;
    assert forall i :: 0 <= i < |w| ==> w[i] == es[if i < m then i else i + 1];
    forall x | x in Newer(w, j) ensures x in Newer(es, k) && x != es[m].session {
      var i :| j < i < |w| && w[i].session == x;
      var i' := if i < m then i else i + 1;
      assert es[i'].session == x;
    }
  }

  /** Where `s` stands once another session has been taken out. */
  lemma RemovedOther(es: seq<Entry>, s: string, o: string)
    requires Distinct(es) && IndexOf(es, s).Some? && s != o
    ensures var w := Without(es, o); var k, j := IndexOf(es, s).value, IndexOf(w, s);
            Distinct(w) && j.Some? && w[j.value] == es[k] && Newer(w, j.value) <= Newer(es, k) - {o}
  {
    hide IndexOf, Distinct;
    var k := IndexOf(es, s).value;
    match IndexOf(es, o)
    case None => assert o !in Newer(es, k);
    case Some(m) =>
      RemovedAt(es, k, m);
      IndexUnique(es[..m] + es[m + 1..], if k < m then k else k - 1);
  }

  /** Dropping the oldest entries does not reach `s` while few enough are newer. */
  lemma TrimmedKeeps(w: seq<Entry>, j: nat)
    requires Distinct(w) && j < |w| && |Newer(w, j)| < MAX_SESSIONS - 1
    ensures var t := Trimmed(w); var i := IndexOf(t, w[j].session);
            Distinct(t) && i.Some? && t[i.value] == w[j] && Newer(t, i.value) <= Newer(w, j)
  {
    NewerCount(w, j);
    var d := if |w| < MAX_SESSIONS then 0 else |w| - MAX_SESSIONS + 1;
    var t := Trimmed(w);
    assert t == w[d..];
    assert t[j - d] == w[j];
    IndexUnique(t, j - d);
    forall x | x in Newer(t, j - d) ensures x in Newer(w, j) {
      var i :| j - d < i < |t| && t[i].session == x;
      assert w[i + d].session == x;
    }
  }

  lemma PushKeeps(t: seq<Entry>, e: Entry, s: string)
    requires Distinct(t + [e]) && IndexOf(t, s).Some? && e.session != s
    ensures var k, j := IndexOf(t, s).value, IndexOf(t + [e], s);
            j == Some(k) && (t + [e])[k] == t[k] && Newer(t + [e], k) <= Newer(t, k) + {e.session}
  {
    var k := IndexOf(t, s).value;
    assert (t + [e])[k] == t[k];
    IndexUnique(t + [e], k);
    forall x | x in Newer(t + [e], k) ensures x in Newer(t, k) + {e.session} {
      var i :| k < i < |t + [e]| && (t + [e])[i].session == x;
      assert i < |t| ==> t[i].session == x;
    }
  }

  /** Touching another session leaves `s` where it was, one step older. */
  lemma OtherTouchKeeps(st: Store, t: Touch, s: string, turn: nat, newer: set<string>)
    requires Valid(st) && t.fromInput >= 1 && Alive(st, s, turn, newer)
    requires t.session != s && t.session in newer && |newer| < MAX_SESSIONS
    ensures Alive(After(st, t), s, turn, newer)
  {
    hide IndexOf, Without, Trimmed, Newer, Previous, NextTurn;
    if !Remembered(st, t) {
      var es := st.entries;
      var w := Without(es, t.session);
      RemovedOther(es, s, t.session);
      var j := IndexOf(w, s).value;
      assert Newer(w, j) <= newer - {t.session};
      SubsetCard(Newer(w, j), newer - {t.session});
      TrimmedKeeps(w, j);
      TouchKeepsValid(st, t);
      PushKeeps(Trimmed(w), Entry(t.session, TurnOf(st, t), t.now), s);
    }
  }

  /** Touching `s` itself, unexpired, never lowers its turn, and raises it for a new request object. */
  lemma OwnTouchKeeps(st: Store, t: Touch, turn: nat, newer: set<string>)
    requires Valid(st) && t.fromInput >= 1 && Alive(st, t.session, turn, newer)
    requires Previous(st.entries, t.session, t.now) > 0
    ensures Alive(After(st, t), t.session, turn, newer)
    ensures !Remembered(st, t) ==> TurnOf(st, t) >= turn && (t.request.Some? ==> TurnOf(st, t) > turn)
  {
    hide Without, Trimmed;
    TouchKeepsValid(st, t);
    if !Remembered(st, t) {
      var es := After(st, t).entries;
      IndexUnique(es, |es| - 1);
      assert Newer(es, |es| - 1) == {};
    }
  }

  /** Touching `s` itself, expired or not, makes it the newest entry. */
  lemma OwnTouchStays(st: Store, t: Touch, newer: set<string>)
    requires Valid(st) && t.fromInput >= 1 && Alive(st, t.session, 0, newer)
    ensures Alive(After(st, t), t.session, 0, newer)
  {
    hide Without, Trimmed, Previous, NextTurn;
    if !Remembered(st, t) {
      FreshlyTouched(st, t, newer);
    }
  }

  /** A session stays stored over any run that touches fewer than MAX_SESSIONS others, expired or not. */
  lemma {:induction false} StaysStored(st: Store, ts: seq<Touch>, s: string, newer: set<string>)
    requires Valid(st) && Wellformed(ts) && Alive(st, s, 0, newer)
    requires Others(ts, s) <= newer && |newer| < MAX_SESSIONS
    ensures Valid(AfterAll(st, ts)) && Alive(AfterAll(st, ts), s, 0, newer)
    decreases |ts|
  {
    hide Valid, Alive, After;
    if ts != [] {
      var t := ts[0];
      assert t in ts;
      TouchKeepsValid(st, t);
      if t.session == s {
        OwnTouchStays(st, t, newer);
      } else {
        assert t.session in Others(ts, s);
        OtherTouchKeeps(st, t, s, 0, newer);
      }
      assert forall u :: u in ts[1..] ==> u in ts;
      assert Others(ts[1..], s) <= Others(ts, s);
      StaysStored(After(st, t), ts[1..], s, newer);
    }
  }

  /** A session that has just been given a turn survives while fewer than MAX_SESSIONS other sessions are touched. */
  lemma TouchedSessionSurvives(st: Store, t: Touch, ts: seq<Touch>)
    requires Valid(st) && t.fromInput >= 1 && !Remembered(st, t)
    requires Wellformed(ts) && |Others(ts, t.session)| < MAX_SESSIONS
    ensures t.session in Sessions(AfterAll(After(st, t), ts).entries)
  {
    hide Valid, After, Others, Wellformed;
    TouchKeepsValid(st, t);
    FreshlyTouched(st, t, Others(ts, t.session));
    assert Alive(After(st, t), t.session, 0, Others(ts, t.session));
    StaysStored(After(st, t), ts, t.session, Others(ts, t.session));
  }

  /** While its entry is unexpired whenever it is touched, the turn of such a session never falls. */
  lemma {:induction false} Survives(st: Store, ts: seq<Touch>, s: string, turn: nat, newer: set<string>)
    requires Valid(st) && Wellformed(ts) && Alive(st, s, turn, newer) && Unexpired(st, ts, s)
    requires Others(ts, s) <= newer && |newer| < MAX_SESSIONS
    ensures Valid(AfterAll(st, ts)) && Alive(AfterAll(st, ts), s, turn, newer)
    decreases |ts|
  {
    hide Valid, Alive, After, Previous;
    if ts != [] {
      var t := ts[0];
      assert t in ts;
      TouchKeepsValid(st, t);
      if t.session == s {
        OwnTouchKeeps(st, t, turn, newer);
      } else {
        assert t.session in Others(ts, s);
        OtherTouchKeeps(st, t, s, turn, newer);
      }
      assert forall u :: u in ts[1..] ==> u in ts;
      assert Others(ts[1..], s) <= Others(ts, s);
      Survives(After(st, t), ts[1..], s, turn, newer);
    }
  }

  /**
   * After a session was given a turn, any run that touches fewer than MAX_SESSIONS other sessions and lets none of
   * its entries expire hands every later new request of that session a strictly larger turn.
   */
  lemma LaterRequestsGetLargerTurns(st: Store, first: Touch, ts: seq<Touch>, later: Touch)
    requires Valid(st) && first.fromInput >= 1 && !Remembered(st, first)
    requires Wellformed(ts) && |Others(ts, first.session)| < MAX_SESSIONS
    requires Unexpired(After(st, first), ts + [later], first.session)
    requires later.session == first.session && later.fromInput >= 1 && later.request.Some?
    requires !Remembered(AfterAll(After(st, first), ts), later)
    ensures TurnOf(AfterAll(After(st, first), ts), later) > TurnOf(st, first)
  {
    var s, st1 := first.session, After(st, first);
    var others := Others(ts, s);
    TouchKeepsValid(st, first);
    FreshlyTouched(st, first, others);
    UnexpiredSplit(st1, ts, later, s);
    Survives(st1, ts, s, TurnOf(st, first), others);
    OwnTouchKeeps(AfterAll(st1, ts), later, TurnOf(st, first), others);
  }

  lemma FreshlyTouched(st: Store, t: Touch, newer: set<string>)
    requires Valid(st) && t.fromInput >= 1 && !Remembered(st, t)
    ensures Alive(After(st, t), t.session, TurnOf(st, t), newer)
  {
    hide Without, Trimmed, Previous, NextTurn;
    TouchKeepsValid(st, t);
    var es := After(st, t).entries;
    IndexUnique(es, |es| - 1);
    assert Newer(es, |es| - 1) == {};
  }

  lemma {:induction false} UnexpiredSplit(st: Store, ts: seq<Touch>, t: Touch, s: string)
    requires Unexpired(st, ts + [t], s)
    ensures Unexpired(st, ts, s) && Unexpired(AfterAll(st, ts), [t], s)
    decreases |ts|
  {
    hide After, Previous;
    if ts == [] {
      assert ts + [t] == [t];
    } else {
      assert (ts + [t])[1..] == ts[1..] + [t];
      UnexpiredSplit(After(st, ts[0]), ts[1..], t, s);
    }
  }

  /** The same request object is given its first turn for ever, whenever it comes back and with whatever input. */
  lemma {:induction false} RequestsKeepTheirTurn(st: Store, t: Touch, ts: seq<Touch>, again: Touch)
    requires t.request.Some? && again.request == t.request
    ensures TurnOf(AfterAll(After(st, t), ts), again) == TurnOf(st, t)
  {
    hide Without, Trimmed, Previous, NextTurn;
    MemoIsKept(After(st, t), ts, t.request.value);
  }

  lemma {:induction false} MemoIsKept(st: Store, ts: seq<Touch>, r: Request)
    requires r in st.requests
    ensures r in AfterAll(st, ts).requests && AfterAll(st, ts).requests[r] == st.requests[r]
    decreases |ts|
  {
    hide Without, Trimmed, Previous, NextTurn;
    if ts != [] {
      MemoIsKept(After(st, ts[0]), ts[1..], r);
    }
  }
}
