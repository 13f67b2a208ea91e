/** Stop reasons of a Kiro turn: classification and severity fold. */
module KiroStop {
  import opened Bytes
  import opened Strings

  datatype Disposition =
    | RetryableFailure
    | TerminalIncomplete
    | TerminalRefusal
    | UnknownFailure
    | Length
    | ToolUse
    | Complete

  predicate Failing(d: Disposition)
  {
    d.RetryableFailure? || d.TerminalIncomplete? || d.TerminalRefusal? || d.UnknownFailure?
  }

  predicate LineBreak(c: char)
  {
    c == '\n' || c == '\r' || c == '\U{2028}' || c == '\U{2029}'
  }

  /** `content.*filter` */
  predicate ContentFilter(s: string)
  {
    exists i, j :: 0 <= i <= j - 7 <= |s| - 13 && Occurs(s, "content", i) && Occurs(s, "filter", j)
      && forall k :: i + 7 <= k < j ==> !LineBreak(s[k])
  }

  predicate Policy(s: string)
  {
    ContentFilter(s) || Contains(s, "guardrail") || Contains(s, "safety") || Contains(s, "policy")
      || Contains(s, "blocked")
  }

  const MALFORMED: set<string> := {"malformed_model_output", "invalid_model_output"}
  const ABANDONED: set<string> := {"cancelled", "pause_turn", "model_context_window_exceeded"}
  const TRUNCATIONS: set<string> := {"model_context_window_exceeded", "max_tokens"}

  function StopDisposition(reason: Option<string>, hasToolCalls: bool): Disposition
  {
    match reason
    case None => if hasToolCalls then ToolUse else Complete
    case Some(r) =>
      if r in MALFORMED then RetryableFailure
      else if r in ABANDONED then TerminalIncomplete
      else if r == "refusal" || Policy(r) then TerminalRefusal
      else if r == "max_tokens" then (if hasToolCalls then TerminalIncomplete else Length)
      else if r != "end_turn" && r != "tool_use" then UnknownFailure
      else if hasToolCalls || r == "tool_use" then ToolUse
      else Complete
  }

  /** Fail closed: everything fails a turn but the two good endings, and running out of tokens without a tool call. */
  predicate Bad(reason: Option<string>, hasToolCalls: bool)
  {
    reason.Some? && reason.value != "end_turn" && reason.value != "tool_use"
    && (reason.value == "max_tokens" ==> hasToolCalls)
  }

  lemma FailingIffBad(reason: Option<string>, hasToolCalls: bool)
    ensures Failing(StopDisposition(reason, hasToolCalls)) <==> Bad(reason, hasToolCalls)
    ensures reason == Some("model_context_window_exceeded") || (reason == Some("max_tokens") && hasToolCalls)
        ==> StopDisposition(reason, hasToolCalls).TerminalIncomplete?
    ensures StopDisposition(reason, hasToolCalls).Length? <==> reason == Some("max_tokens") && !hasToolCalls
  {
    NoPolicyInNames();
    hide Policy;
  }

  lemma OccursChar(s: string, w: string, i: int, k: nat)
    requires Occurs(s, w, i) && k < |w|
    ensures w[k] in s
  {
    assert s[i..i + |w|][k] == s[i + k];
  }

  lemma PolicyNeeds(s: string)
    requires Policy(s)
    ensures 'f' in s || 'g' in s || 'p' in s || 'b' in s
  {
    if ContentFilter(s) {
      var i, j :| Occurs(s, "content", i) && Occurs(s, "filter", j);
      OccursChar(s, "filter", j, 0);
    } else if Contains(s, "guardrail") {
      var i :| Occurs(s, "guardrail", i);
      OccursChar(s, "guardrail", i, 0);
    } else if Contains(s, "safety") {
      var i :| Occurs(s, "safety", i);
      OccursChar(s, "safety", i, 2);
    } else if Contains(s, "policy") {
      var i :| Occurs(s, "policy", i);
      OccursChar(s, "policy", i, 0);
    } else {
      var i :| Occurs(s, "blocked", i);
      OccursChar(s, "blocked", i, 0);
    }
  }

  lemma NoPolicyInNames()
    ensures !Policy("max_tokens") && !Policy("end_turn") && !Policy("tool_use")
  {
    hide Policy;
    if Policy("max_tokens") { PolicyNeeds("max_tokens"); }
    if Policy("end_turn") { PolicyNeeds("end_turn"); }
    if Policy("tool_use") { PolicyNeeds("tool_use"); }
  }

  function Severity(r: string): nat
  {
    match StopDisposition(Some(r), false)
    case TerminalRefusal => 6
    case TerminalIncomplete => 5
    case UnknownFailure => 4
    case RetryableFailure => 3
    case Length => 2
    case _ => 1
  }

  function Merge(current: Option<string>, incoming: Option<string>): Option<string>
  {
    if incoming.None? then current
    else if current.None? then incoming
    else if Severity(incoming.value) > Severity(current.value) then incoming
    else current
  }

  /** The alias table applied to a cleaned-up reason; an empty reason is no reason. */
  function Canonical(reason: string): Option<string>
  {
    if reason in ["endturn", "end_turn", "stop", "stop_sequence"] then Some("end_turn")
    else if reason in ["tooluse", "tool_use", "tool_calls"] then Some("tool_use")
    else if reason in ["maxtokens", "max_tokens", "max_output_tokens", "length"] then Some("max_tokens")
    else if reason == "" then None
    else Some(reason)
  }

  function FoldReasons(current: Option<string>, rs: seq<string>): Option<string>
    decreases |rs|
  {
    if rs == [] then current else FoldReasons(Merge(current, Some(rs[0])), rs[1..])
  }

  /** `i` is the first place where the highest severity of `rs` occurs. */
  ghost predicate FirstWorst(rs: seq<string>, i: nat)
  {
    && i < |rs|
    && (forall j :: 0 <= j < |rs| ==> Severity(rs[j]) <= Severity(rs[i]))
    && (forall j :: 0 <= j < i ==> Severity(rs[j]) < Severity(rs[i]))
  }

  lemma {:induction false} FoldFrom(r: string, rs: seq<string>) returns (i: nat)
    ensures FirstWorst([r] + rs, i) && FoldReasons(Some(r), rs) == Some(([r] + rs)[i])
    decreases |rs|
  {
    hide Severity;
    i := 0;
    if rs != [] {
      var next := Merge(Some(r), Some(rs[0])).value;
      var k := FoldFrom(next, rs[1..]);
      var tail := [next] + rs[1..];
      var all := [r] + rs;
      assert forall j :: 1 <= j < |tail| ==> tail[j] == all[j + 1];
      assert tail[0] == next && all[0] == r && all[1] == rs[0];
      if k == 0 {
        i := if next == rs[0] && Severity(rs[0]) > Severity(r) then 1 else 0;
        forall j | 0 <= j < |all| ensures Severity(all[j]) <= Severity(all[i]) {
          if j >= 2 { assert all[j] == tail[j - 1]; }
        }
      } else {
        i := k + 1;
        forall j | 0 <= j < |all|
          ensures Severity(all[j]) <= Severity(all[i]) && (j < i ==> Severity(all[j]) < Severity(all[i])) {
          if j >= 2 { assert all[j] == tail[j - 1]; }
        }
      }
    }
  }

  /** The surviving reason is the first of the most severe ones. */
  lemma FoldIsFirstWorst(rs: seq<string>) returns (i: nat)
    requires rs != []
    ensures FirstWorst(rs, i) && FoldReasons(None, rs) == Some(rs[i])
  {
    i := FoldFrom(rs[0], rs[1..]);
    assert [rs[0]] + rs[1..] == rs;
  }

  lemma {:induction false} FoldAppend(current: Option<string>, a: seq<string>, b: seq<string>)
    ensures FoldReasons(current, a + b) == FoldReasons(FoldReasons(current, a), b)
    decreases |a|
  {
    if a == [] {
      assert a + b == b;
    } else {
      assert (a + b)[1..] == a[1..] + b;
      FoldAppend(Merge(current, Some(a[0])), a[1..], b);
    }
  }

  /** A refusal anywhere decides the turn. */
  lemma RefusalWins(rs: seq<string>, k: nat, hasToolCalls: bool)
    requires k < |rs| && StopDisposition(Some(rs[k]), false).TerminalRefusal?
    ensures StopDisposition(FoldReasons(None, rs), hasToolCalls).TerminalRefusal?
  {
    hide Policy, FoldReasons;
    var i := FoldIsFirstWorst(rs);
    assert Severity(rs[k]) == 6;
  }

  /** A benign surviving reason means only benign reasons were reported. */
  lemma BenignMeansOnlyBenign(rs: seq<string>, hasToolCalls: bool)
    requires var d := StopDisposition(FoldReasons(None, rs), hasToolCalls); d.Complete? || d.ToolUse?
    ensures forall r :: r in rs ==> r == "end_turn" || r == "tool_use"
  {
    hide Policy, FoldReasons;
    if rs != [] {
      var i := FoldIsFirstWorst(rs);
      assert Severity(rs[i]) == 1;
      forall j | 0 <= j < |rs| ensures rs[j] == "end_turn" || rs[j] == "tool_use" {
        assert Severity(rs[j]) == 1;
      }
    }
  }
}
