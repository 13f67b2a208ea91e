/** Composer answers: visible text cut out of the thinking stream, and its incremental emission. */
module Composer {
  import opened Bytes
  import opened Strings

  const TAG := "</think>"
  const SENTINEL := "<\U{FF5C}final\U{FF5C}>"

  type Spaces = char -> bool

  /** lastIndexOf, searching downwards from `i`. */
  function LastIndexFrom(s: string, w: string, i: int): (r: Option<nat>)
    requires i <= |s| - |w|
    ensures r.Some? ==> r.value <= i && Occurs(s, w, r.value)
    ensures r.Some? ==> forall j :: r.value < j <= i ==> !Occurs(s, w, j)
    ensures r.None? ==> forall j :: 0 <= j <= i ==> !Occurs(s, w, j)
    decreases if i < 0 then 0 else i + 1
  {
    if i < 0 then None else if Occurs(s, w, i) then Some(i) else LastIndexFrom(s, w, i - 1)
  }

  function LastIndex(s: string, w: string): (r: Option<nat>)
    ensures r.Some? ==> Occurs(s, w, r.value) && forall j :: r.value < j ==> !Occurs(s, w, j)
    ensures r.None? ==> forall j :: !Occurs(s, w, j)
  {
    LastIndexFrom(s, w, |s| - |w|)
  }

  function TrimStart(sp: Spaces, s: string): string
  {
    if s != "" && sp(s[0]) then TrimStart(sp, s[1..]) else s
  }

  /** The visible part of what follows the tag. */
  function Shown(sp: Spaces, after: string): string
  {
    var visible := TrimStart(sp, after);
    if StartsWith(visible, SENTINEL) then TrimStart(sp, visible[|SENTINEL|..]) else visible
  }

  /** visibleComposerContentFromThinking */
  function Visible(sp: Spaces, thinking: string): string
  {
    match LastIndex(thinking, TAG)
    case None => ""
    case Some(i) => Shown(sp, thinking[i + |TAG|..])
  }

  /** A tail of length `n` that could still grow into the sentinel. */
  predicate Held(v: string, n: nat)
  {
    n <= |v| && n < |SENTINEL| && StartsWith(SENTINEL, v[|v| - n..])
  }

  /** The longest held tail not longer than `n`. */
  function HoldFrom(v: string, n: nat): (h: nat)
    ensures h <= n && Held(v, h)
    ensures forall m :: h < m <= n ==> !Held(v, m)
  {
    if n == 0 || Held(v, n) then n else HoldFrom(v, n - 1)
  }

  /** emittableComposerContent */
  function Emittable(v: string): string
  {
    v[..|v| - HoldFrom(v, |v|)]
  }

  /** The countdown over possible tail lengths. */
  method ComputeEmittable(visible: string) returns (r: string)
    ensures r == Emittable(visible)
  {
    var n := if |visible| < |SENTINEL| - 1 then |visible| else |SENTINEL| - 1;
    while n > 0
      invariant 0 <= n <= |visible| && n < |SENTINEL|
      invariant forall m :: n < m <= |visible| ==> !Held(visible, m)
    {
      if StartsWith(SENTINEL, visible[|visible| - n..]) {
        assert Held(visible, n);
        return visible[..|visible| - n];
      }
      n := n - 1;
    }
    return visible;
  }

  // ----- the streaming run -----

  /** What has been sent so far, and the recorded length of the last visible text. */
  datatype Emitter = Emitter(sent: string, length: nat)

  /** emitComposerContent */
  function EmitContent(m: Emitter, visible: string): Emitter
  {
    if |visible| <= m.length then m else Emitter(m.sent + visible[m.length..], |visible|)
  }

  function Feed(sp: Spaces, m: Emitter, thinking: string, fragments: seq<string>): Emitter
    decreases |fragments|
  {
    if fragments == [] then EmitContent(m, Visible(sp, thinking))
    else
      var t := thinking + fragments[0];
      Feed(sp, if fragments[0] == "" then m else EmitContent(m, Emittable(Visible(sp, t))), t, fragments[1..])
  }

  /** The loop over frames and the final flush; `emissions` are the content deltas in order. */
  method StreamComposer(sp: Spaces, fragments: seq<string>) returns (emissions: seq<string>)
    ensures Concat(emissions) == Feed(sp, Emitter("", 0), "", fragments).sent
  {
    hide Visible, Emittable;
    emissions := [];
    var totalThinking, length: nat := "", 0;
    var i := 0;
    while i < |fragments|
      invariant 0 <= i <= |fragments|
      invariant Feed(sp, Emitter(Concat(emissions), length), totalThinking, fragments[i..])
                == Feed(sp, Emitter("", 0), "", fragments)
    {
      assert fragments[i..][1..] == fragments[i + 1..];
      totalThinking := totalThinking + fragments[i];
      if fragments[i] != "" {
        var visible := ComputeEmittable(Visible(sp, totalThinking));
        if |visible| > length {
          ConcatSnoc(emissions, visible[length..]);
          emissions, length := emissions + [visible[length..]], |visible|;
        }
      }
      i := i + 1;
    }
    var visible := Visible(sp, totalThinking);
    if |visible| > length {
      ConcatSnoc(emissions, visible[length..]);
      emissions := emissions + [visible[length..]];
    }
  }

  lemma ConcatSnoc(parts: seq<string>, p: string)
    ensures Concat(parts + [p]) == Concat(parts) + p
  {
    ConcatAppend(parts, [p]);
    assert Concat([p]) == p + Concat([]) == p;
  }

  // ----- streaming refines the batch answer -----

  lemma {:induction false} TrimAppend(sp: Spaces, s: string, x: string)
    ensures TrimStart(sp, s) != "" ==> TrimStart(sp, s + x) == TrimStart(sp, s) + x
  {
    if s != "" && sp(s[0]) {
      TrimAppend(sp, s[1..], x);
      assert (s + x)[1..] == s[1..] + x;
    }
  }

  lemma EmittableIsPrefix(v: string)
    ensures Emittable(v) <= v
  {
  }

  /** More visible text never takes back what could be sent. */
  lemma EmittableGrows(v: string, x: string)
    ensures Emittable(v) <= Emittable(v + x)
  {
    var w := v + x;
    var n, h := HoldFrom(w, |w|), HoldFrom(v, |v|);
    var p := |w| - n;
    if p < |v| {
      assert v[p..] == w[p..][..|v| - p];
      assert Held(v, |v| - p);
    }
  }

  /** An unfinished sentinel is held back entirely. */
  lemma PartialSentinelHeld(v: string)
    requires StartsWith(SENTINEL, v) && |v| < |SENTINEL|
    ensures Emittable(v) == ""
  {
    assert v[|v| - |v|..] == v;
    assert Held(v, |v|);
  }

  lemma ShownGrows(sp: Spaces, s: string, x: string)
    ensures Emittable(Shown(sp, s)) <= Emittable(Shown(sp, s + x))
  {
    hide Emittable, TrimStart;
    var t := TrimStart(sp, s);
    TrimAppend(sp, s, x);
    if t == "" {
      EmittableIsPrefix("");
    } else if StartsWith(t, SENTINEL) {
      var u := t[|SENTINEL|..];
      assert (t + x)[|SENTINEL|..] == u + x;
      TrimAppend(sp, u, x);
      if TrimStart(sp, u) == "" {
        EmittableIsPrefix("");
      } else {
        EmittableGrows(TrimStart(sp, u), x);
      }
    } else if StartsWith(t + x, SENTINEL) {
      assert StartsWith(SENTINEL, t) && |t| < |SENTINEL| by { OverlapIsPrefix(t, x); }
      PartialSentinelHeld(t);
    } else {
      EmittableGrows(t, x);
    }
  }

  lemma OverlapIsPrefix(t: string, x: string)
    requires SENTINEL <= t + x && !(SENTINEL <= t)
    ensures t <= SENTINEL && |t| < |SENTINEL|
  {
    assert |t| < |SENTINEL| ==> (t + x)[..|SENTINEL|][..|t|] == t;
  }

  ghost predicate AtMostOneTag(s: string)
  {
    forall i, j :: Occurs(s, TAG, i) && Occurs(s, TAG, j) ==> i == j
  }

  /** As long as no further tag is completed, what may be sent only grows. */
  lemma VisibleGrows(sp: Spaces, t: string, x: string)
    requires LastIndex(t + x, TAG) == LastIndex(t, TAG)
    ensures Emittable(Visible(sp, t)) <= Emittable(Visible(sp, t + x))
  {
    hide Emittable, Shown;
    match LastIndex(t, TAG)
    case None => EmittableIsPrefix("");
    case Some(i) =>
      assert (t + x)[i + |TAG|..] == t[i + |TAG|..] + x;
      ShownGrows(sp, t[i + |TAG|..], x);
  }

  // ----- exactly when streaming meets the batch answer -----

  /** No prefix of the text could have shown anything that the whole text does not begin with. */
  ghost predicate Steady(sp: Spaces, text: string)
  {
    forall k :: 0 <= k <= |text| ==> Emittable(Visible(sp, text[..k])) <= Visible(sp, text)
  }

  /** Every way of cutting the text into fragments sends exactly the batch answer. */
  ghost predicate AlwaysAgrees(sp: Spaces, text: string)
  {
    forall fs: seq<string> :: Concat(fs) == text ==> Feed(sp, Emitter("", 0), "", fs).sent == Visible(sp, text)
  }

  /** The emitter has sent a prefix of the final answer and knows how long it is. */
  predicate OnTrack(m: Emitter, final: string)
  {
    m.length == |m.sent| && m.sent <= final
  }

  lemma EmitStaysOnTrack(m: Emitter, visible: string, final: string)
    requires OnTrack(m, final) && visible <= final
    ensures OnTrack(EmitContent(m, visible), final) && visible <= EmitContent(m, visible).sent
  {
  }

  lemma SteadyAt(sp: Spaces, text: string, t: string)
    requires Steady(sp, text) && t <= text
    ensures Emittable(Visible(sp, t)) <= Visible(sp, text)
  {
    assert text[..|t|] == t;
  }

  lemma {:induction false} SteadyFeeds(sp: Spaces, m: Emitter, thinking: string, fragments: seq<string>, text: string)
    requires text == thinking + Concat(fragments) && Steady(sp, text) && OnTrack(m, Visible(sp, text))
    ensures Feed(sp, m, thinking, fragments).sent == Visible(sp, text)
    decreases |fragments|
  {
    hide Visible, Emittable, Steady, EmitContent;
    if fragments == [] {
      assert thinking == text;
      EmitStaysOnTrack(m, Visible(sp, text), Visible(sp, text));
    } else {
      var t := thinking + fragments[0];
      assert text == t + Concat(fragments[1..]);
      SteadyAt(sp, text, t);
      EmitStaysOnTrack(m, Emittable(Visible(sp, t)), Visible(sp, text));
      var m' := if fragments[0] == "" then m else EmitContent(m, Emittable(Visible(sp, t)));
      SteadyFeeds(sp, m', t, fragments[1..], text);
    }
  }

  /** What was sent stays sent. */
  lemma {:induction false} FeedExtends(sp: Spaces, m: Emitter, thinking: string, fragments: seq<string>)
    ensures m.sent <= Feed(sp, m, thinking, fragments).sent
    decreases |fragments|
  {
    hide Visible, Emittable;
    if fragments != [] {
      var t := thinking + fragments[0];
      FeedExtends(sp, if fragments[0] == "" then m else EmitContent(m, Emittable(Visible(sp, t))), t, fragments[1..]);
    }
  }

  /** Cutting after a prefix sends what that prefix shows. */
  lemma CutSends(sp: Spaces, t: string, rest: string)
    ensures Emittable(Visible(sp, t)) <= Feed(sp, Emitter("", 0), "", [t, rest]).sent
  {
    hide Emittable;
    if t == "" {
      assert Visible(sp, "") == "";
      EmittableIsPrefix("");
    } else {
      var m := EmitContent(Emitter("", 0), Emittable(Visible(sp, t)));
      assert "" + t == t && [t, rest][1..] == [rest] && m.sent == Emittable(Visible(sp, t));
      FeedExtends(sp, m, t, [rest]);
    }
  }

  /** Streaming gives the batch answer for every fragmentation exactly for the steady texts. */
  lemma AgreesIffSteady(sp: Spaces, text: string)
    ensures AlwaysAgrees(sp, text) <==> Steady(sp, text)
  {
    hide Visible, Emittable, Feed;
    if AlwaysAgrees(sp, text) {
      forall k | 0 <= k <= |text| ensures Emittable(Visible(sp, text[..k])) <= Visible(sp, text) {
        var fs := [text[..k], text[k..]];
        ConcatTwo(text[..k], text[k..]);
        assert text[..k] + text[k..] == text;
        CutSends(sp, text[..k], text[k..]);
      }
    }
    if Steady(sp, text) {
      forall fs: seq<string> | Concat(fs) == text ensures Feed(sp, Emitter("", 0), "", fs).sent == Visible(sp, text) {
        assert "" + text == text;
        SteadyFeeds(sp, Emitter("", 0), "", fs, text);
      }
    }
  }

  lemma ConcatTwo(a: string, b: string)
    ensures Concat([a, b]) == a + b
  {
    ConcatSnoc([], a);
    ConcatSnoc([a], b);
    assert [] + [a] == [a] && [a] + [b] == [a, b] && Concat<char>([]) + a == a;
  }

  /** What could have been sent just before a tag completes is how the final answer begins. */
  ghost predicate SteadyAtTags(sp: Spaces, text: string)
  {
    forall j :: Occurs(text, TAG, j) ==> Emittable(Visible(sp, text[..j + |TAG| - 1])) <= Visible(sp, text)
  }

  lemma OccursInPrefix(text: string, i: int, n: nat)
    requires n <= |text|
    ensures Occurs(text[..n], TAG, i) <==> Occurs(text, TAG, i) && i + |TAG| <= n
  {
    if 0 <= i && i + |TAG| <= n {
      assert text[..n][i..i + |TAG|] == text[i..i + |TAG|];
    }
  }

  /** Two prefixes between which no tag ends have the same last tag. */
  lemma SameLastTag(text: string, k: nat, n: nat)
    requires k <= n <= |text| && forall i :: Occurs(text, TAG, i) ==> i + |TAG| <= k || n < i + |TAG|
    ensures LastIndex(text[..n], TAG) == LastIndex(text[..k], TAG)
  {
    forall i ensures Occurs(text[..n], TAG, i) <==> Occurs(text[..k], TAG, i) {
      OccursInPrefix(text, i, n);
      OccursInPrefix(text, i, k);
    }
  }

  /** The first tag that ends after the first `k` characters, if any. */
  lemma NextTag(text: string, k: nat) returns (next: Option<nat>)
    requires k <= |text|
    ensures next.None? ==> forall i :: Occurs(text, TAG, i) ==> i + |TAG| <= k
    ensures next.Some? ==> Occurs(text, TAG, next.value) && k < next.value + |TAG|
                           && forall i :: Occurs(text, TAG, i) ==> i + |TAG| <= k || next.value <= i
  {
    var i := 0;
    while i <= |text| && !(Occurs(text, TAG, i) && k < i + |TAG|)
      invariant forall j :: 0 <= j < i && Occurs(text, TAG, j) ==> j + |TAG| <= k
    {
      i := i + 1;
    }
    next := if i <= |text| then Some(i) else None;
  }

  /** It is enough to look where tags complete. */
  lemma SteadyIffAtTags(sp: Spaces, text: string)
    ensures Steady(sp, text) <==> SteadyAtTags(sp, text)
  {
    hide Visible, Emittable, LastIndex;
    if SteadyAtTags(sp, text) {
      forall k | 0 <= k <= |text| ensures Emittable(Visible(sp, text[..k])) <= Visible(sp, text) {
        var next := NextTag(text, k);
        var n := if next.Some? then next.value + |TAG| - 1 else |text|;
        SameLastTag(text, k, n);
        assert text[..k] + text[k..n] == text[..n];
        VisibleGrows(sp, text[..k], text[k..n]);
        EmittableIsPrefix(Visible(sp, text));
        assert next.None? ==> text[..n] == text;
      }
    }
  }

  /** A text with one closing tag is always steady. */
  lemma OneTagIsSteady(sp: Spaces, text: string)
    requires AtMostOneTag(text)
    ensures Steady(sp, text)
  {
    hide Emittable;
    forall j | Occurs(text, TAG, j) ensures Emittable(Visible(sp, text[..j + |TAG| - 1])) <= Visible(sp, text) {
      var before := text[..j + |TAG| - 1];
      forall i ensures !Occurs(before, TAG, i) {
        OccursInPrefix(text, i, j + |TAG| - 1);
      }
      EmittableIsPrefix("");
    }
    SteadyIffAtTags(sp, text);
  }

  /**
   * For every fragmentation of a thinking text with at most one closing tag the deltas are exactly the visible
   * text.
   */
  lemma StreamingRefinesBatch(sp: Spaces, fragments: seq<string>)
    requires AtMostOneTag(Concat(fragments))
    ensures Feed(sp, Emitter("", 0), "", fragments).sent == Visible(sp, Concat(fragments))
  {
    OneTagIsSteady(sp, Concat(fragments));
    AgreesIffSteady(sp, Concat(fragments));
  }

  /** Sent after the given fragments, before the final flush. */
  function SentAfter(sp: Spaces, m: Emitter, thinking: string, fragments: seq<string>): Emitter
    decreases |fragments|
  {
    if fragments == [] then m
    else
      var t := thinking + fragments[0];
      SentAfter(sp, if fragments[0] == "" then m else EmitContent(m, Emittable(Visible(sp, t))), t, fragments[1..])
  }

  lemma {:induction false} SentAfterOnTrack(sp: Spaces, m: Emitter, thinking: string, fragments: seq<string>,
      text: string)
    requires thinking + Concat(fragments) <= text && Steady(sp, text) && OnTrack(m, Visible(sp, text))
    ensures OnTrack(SentAfter(sp, m, thinking, fragments), Visible(sp, text))
    decreases |fragments|
  {
    hide Visible, Emittable, Steady, EmitContent;
    if fragments != [] {
      var t := thinking + fragments[0];
      assert thinking + Concat(fragments) == t + Concat(fragments[1..]);
      assert t <= text;
      SteadyAt(sp, text, t);
      EmitStaysOnTrack(m, Emittable(Visible(sp, t)), Visible(sp, text));
      var m' := if fragments[0] == "" then m else EmitContent(m, Emittable(Visible(sp, t)));
      SentAfterOnTrack(sp, m', t, fragments[1..], text);
    }
  }

  /** At every moment what was sent is a prefix of the final answer, so no part of a leading sentinel is in it. */
  lemma SentIsAlwaysAPrefix(sp: Spaces, fragments: seq<string>, n: nat)
    requires Steady(sp, Concat(fragments)) && n <= |fragments|
    ensures SentAfter(sp, Emitter("", 0), "", fragments[..n]).sent <= Visible(sp, Concat(fragments))
  {
    hide Visible, Emittable, SentAfter, Steady, Concat;
    var done, rest := fragments[..n], fragments[n..];
    assert fragments == done + rest;
    ConcatAppend(done, rest);
    assert "" + Concat(done) == Concat(done);
    SentAfterOnTrack(sp, Emitter("", 0), "", done, Concat(fragments));
  }

  lemma FeedTwo(sp: Spaces, f: string, g: string)
    requires f != "" && g != ""
    ensures Feed(sp, Emitter("", 0), "", [f, g])
         == EmitContent(EmitContent(EmitContent(Emitter("", 0), Emittable(Visible(sp, f))),
                                    Emittable(Visible(sp, f + g))), Visible(sp, f + g))
  {
    hide Visible, Emittable, EmitContent;
    assert "" + f == f && [f, g][1..] == [g] && [g][1..] == [];
    var m1 := EmitContent(Emitter("", 0), Emittable(Visible(sp, f)));
    var m2 := EmitContent(m1, Emittable(Visible(sp, f + g)));
    assert Feed(sp, Emitter("", 0), "", [f, g]) == Feed(sp, m1, f, [g]);
    assert Feed(sp, m1, f, [g]) == Feed(sp, m2, f + g, []);
  }

  /** With a second tag the stream cannot take back what it sent: the answer is "b", the client was sent "a". */
  lemma SecondTagDiverges(sp: Spaces)
    requires !sp('a') && !sp('b')
    ensures Visible(sp, Concat([TAG + "a", TAG + "b"])) == "b"
    ensures Feed(sp, Emitter("", 0), "", [TAG + "a", TAG + "b"]).sent == "a"
    ensures !Steady(sp, Concat([TAG + "a", TAG + "b"]))
  {
    hide Visible, Emittable, Feed, Steady;
    AgreesIffSteady(sp, Concat([TAG + "a", TAG + "b"]));
    var f, g := TAG + "a", TAG + "b";
    ConcatTwo(f, g);
    VisibleAfter(sp, "", "a");
    VisibleAfter(sp, f, "b");
    assert "" + TAG + "a" == f && f + TAG + "b" == f + g;
    EmittableLetter('a');
    EmittableLetter('b');
    FeedTwo(sp, f, g);
  }

  lemma VisibleAfter(sp: Spaces, before: string, c: string)
    requires |c| == 1 && !sp(c[0]) && (c == "a" || c == "b")
    ensures Visible(sp, before + TAG + c) == c
  {
    var s := before + TAG + c;
    assert s[|before|..|before| + |TAG|] == TAG;
    assert Occurs(s, TAG, |before|);
    assert LastIndex(s, TAG).value >= |before|;
    var i := LastIndex(s, TAG).value;
    assert i <= |before| + 1;
    assert s[|before| + |TAG|..] == c;
  }

  lemma EmittableLetter(c: char)
    requires c == 'a' || c == 'b'
    ensures Emittable([c]) == [c]
  {
    assert [c][1 - 1..] == [c] && SENTINEL[0] == '<';
    assert !Held([c], 1);
  }

  // ----- what is visible -----

  lemma {:induction false} TrimSkips(sp: Spaces, gap: string, answer: string)
    requires (forall i :: 0 <= i < |gap| ==> sp(gap[i])) && (answer != "" ==> !sp(answer[0]))
    ensures TrimStart(sp, gap + answer) == answer
    decreases |gap|
  {
    if gap == "" {
      assert gap + answer == answer;
    } else {
      assert (gap + answer)[1..] == gap[1..] + answer && (gap + answer)[0] == gap[0];
      TrimSkips(sp, gap[1..], answer);
    }
  }

  lemma LastTagAt(text: string, i: nat)
    requires Occurs(text, TAG, i) && forall j :: j > i ==> !Occurs(text, TAG, j)
    ensures LastIndex(text, TAG) == Some(i)
  {
  }

  /** What follows the last tag is visible, without leading space and without a leading sentinel and its space. */
  lemma VisibleReads(sp: Spaces, before: string, gap: string, sentinel: bool, space: string, answer: string)
    requires forall i :: 0 <= i < |gap| ==> sp(gap[i])
    requires forall i :: 0 <= i < |space| ==> sp(space[i])
    requires (answer != "" ==> !sp(answer[0])) && !sp(SENTINEL[0])
    requires !sentinel ==> space == "" && !StartsWith(answer, SENTINEL)
    requires var text := before + TAG + (gap + ((if sentinel then SENTINEL else "") + (space + answer)));
             forall j :: j > |before| ==> !Occurs(text, TAG, j)
    ensures Visible(sp, before + TAG + (gap + ((if sentinel then SENTINEL else "") + (space + answer)))) == answer
  {
    hide TrimStart, LastIndex;
    var mark := if sentinel then SENTINEL else "";
    var after := gap + (mark + (space + answer));
    var text := before + TAG + after;
    assert text[|before|..|before| + |TAG|] == TAG && text[|before| + |TAG|..] == after;
    LastTagAt(text, |before|);
    if sentinel {
      assert (mark + (space + answer))[0] == SENTINEL[0];
      TrimSkips(sp, gap, mark + (space + answer));
      assert (mark + (space + answer))[|SENTINEL|..] == space + answer;
      TrimSkips(sp, space, answer);
    } else {
      assert mark + (space + answer) == answer;
      TrimSkips(sp, gap, answer);
    }
  }

  /** The last `n` characters. */
  function Tail(v: string, n: nat): string
    requires n <= |v|
  {
    v[|v| - n..]
  }

  /** Text is held back only while its end could still become the sentinel, and never more than that. */
  lemma NothingElseHeld(v: string)
    ensures (forall n :: 0 < n <= |v| && n < |SENTINEL| ==> !(Tail(v, n) <= SENTINEL)) ==> Emittable(v) == v
    ensures |Emittable(v)| > |v| - |SENTINEL|
    ensures Tail(v, |v| - |Emittable(v)|) <= SENTINEL
  {
    var h := HoldFrom(v, |v|);
    assert Held(v, h);
    if h > 0 {
      assert Tail(v, h) <= SENTINEL;
    }
  }
}
