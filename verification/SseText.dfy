/** Splitting event-stream text at line ends and at blank lines, and why a split can be carried over a cut. */
module SseText {

  /** What separates: a line end, or the blank line that closes an event. Either newline may be CRLF. */
  datatype Separator = LineEnd | BlankLine

  /** Length of `\r?\n` at `i`, 0 when there is none. */
  function NewlineAt(t: string, i: nat): nat
  {
    if i < |t| && t[i] == '\n' then 1
    else if i + 1 < |t| && t[i] == '\r' && t[i + 1] == '\n' then 2
    else 0
  }

  function SeparatorAt(sep: Separator, t: string, i: nat): (n: nat)
    ensures n > 0 ==> i + n <= |t|
  {
    var a := NewlineAt(t, i);
    if sep.LineEnd? || a == 0 then a
    else
      var b := NewlineAt(t, i + a);
      if b == 0 then 0 else a + b
  }

  /** Where the first separator from `i` on starts, |t| when there is none. */
  function FirstSeparator(sep: Separator, t: string, i: nat): (f: nat)
    requires i <= |t|
    ensures i <= f <= |t|
    ensures f < |t| ==> SeparatorAt(sep, t, f) > 0
    ensures forall j :: i <= j < f ==> SeparatorAt(sep, t, j) == 0
    decreases |t| - i
  {
    if i == |t| || SeparatorAt(sep, t, i) > 0 then i else FirstSeparator(sep, t, i + 1)
  }

  /** `text.split(separator)`: never empty, the last part is what no separator closes. */
  function Split(sep: Separator, t: string): (parts: seq<string>)
    ensures parts != []
    decreases |t|
  {
    var f := FirstSeparator(sep, t, 0);
    if f == |t| then [t] else [t[..f]] + Split(sep, t[f + SeparatorAt(sep, t, f)..])
  }

  function Closed(sep: Separator, t: string): seq<string>
  {
    var parts := Split(sep, t);
    parts[..|parts| - 1]
  }

  function Unclosed(sep: Separator, t: string): string
  {
    var parts := Split(sep, t);
    parts[|parts| - 1]
  }

  /** A separator that new text completes cannot lie before one that was complete already. */
  lemma NoEarlierSeparator(sep: Separator, a: string, b: string, i: nat, f: nat)
    requires i < f && SeparatorAt(sep, a, i) == 0 && SeparatorAt(sep, a, f) > 0
    ensures SeparatorAt(sep, a + b, i) == 0
  {
    var t := a + b;
    assert forall k {:trigger t[k]} :: 0 <= k < |a| ==> t[k] == a[k];
  }

  lemma SeparatorStays(sep: Separator, a: string, b: string, f: nat)
    requires SeparatorAt(sep, a, f) > 0
    ensures SeparatorAt(sep, a + b, f) == SeparatorAt(sep, a, f)
  {
    var t := a + b;
    assert forall k {:trigger t[k]} :: 0 <= k < |a| ==> t[k] == a[k];
  }

  lemma FirstSeparatorStays(sep: Separator, a: string, b: string)
    requires FirstSeparator(sep, a, 0) < |a|
    ensures var f := FirstSeparator(sep, a, 0);
            FirstSeparator(sep, a + b, 0) == f && SeparatorAt(sep, a + b, f) == SeparatorAt(sep, a, f)
  {
    hide SeparatorAt;
    var f := FirstSeparator(sep, a, 0);
    SeparatorStays(sep, a, b, f);
    forall i | 0 <= i < f ensures SeparatorAt(sep, a + b, i) == 0 {
      NoEarlierSeparator(sep, a, b, i, f);
    }
  }

  /** One part comes off the front. */
  lemma SplitOnce(sep: Separator, t: string, part: string, rest: string)
    requires FirstSeparator(sep, t, 0) == |part| < |t| && part == t[..|part|]
    requires rest == t[|part| + SeparatorAt(sep, t, |part|)..]
    ensures Split(sep, t) == [part] + Split(sep, rest)
    ensures Closed(sep, t) == [part] + Closed(sep, rest) && Unclosed(sep, t) == Unclosed(sep, rest)
  {
    hide SeparatorAt, FirstSeparator;
  }

  lemma SplitNone(sep: Separator, t: string)
    requires FirstSeparator(sep, t, 0) == |t|
    ensures Closed(sep, t) == [] && Unclosed(sep, t) == t
  {
  }

  /** Carrying the unclosed part over to the next piece of text splits the whole text. */
  lemma {:induction false} SplitAppend(sep: Separator, a: string, b: string)
    ensures Split(sep, a + b) == Closed(sep, a) + Split(sep, Unclosed(sep, a) + b)
    decreases |a|
  {
    hide *;
    var f, t := FirstSeparator(sep, a, 0), a + b;
    if f == |a| {
      SplitNone(sep, a);
      assert [] + Split(sep, t) == Split(sep, t);
    } else {
      var n := SeparatorAt(sep, a, f);
      FirstSeparatorStays(sep, a, b);
      var part, rest := a[..f], a[f + n..];
      assert t[..f] == part && t[f + n..] == rest + b;
      SplitOnce(sep, a, part, rest);
      SplitOnce(sep, t, part, rest + b);
      SplitAppend(sep, rest, b);
      Regroup(part, Closed(sep, rest), Split(sep, Unclosed(sep, rest) + b));
    }
  }

  lemma Regroup(part: string, x: seq<string>, y: seq<string>)
    ensures [part] + (x + y) == [part] + x + y
  {
  }

  // ----- joined text splits back -----

  /** No blank line inside, and no newline at the end that could join the separator. */
  predicate BlockText(block: string)
  {
    && (forall i :: 0 <= i < |block| - 1 ==> !(block[i] == '\n' && block[i + 1] == '\n'))
    && (forall i :: 0 <= i < |block| - 2 ==> !(block[i] == '\n' && block[i + 1] == '\r' && block[i + 2] == '\n'))
    && (block != "" ==> block[|block| - 1] != '\n' && block[|block| - 1] != '\r')
  }

  /** The four ways to write a blank line. */
  predicate Blank(sep: string)
  {
    sep == "\n\n" || sep == "\r\n\r\n" || sep == "\n\r\n" || sep == "\r\n\n"
  }

  lemma NoSeparatorInside(block: string, rest: string, i: nat)
    requires BlockText(block) && i < |block|
    ensures SeparatorAt(BlankLine, block + rest, i) == 0
  {
    var t := block + rest;
    assert forall k {:trigger t[k]} :: 0 <= k < |block| ==> t[k] == block[k];
  }

  lemma SeparatorFound(block: string, sep: string, rest: string)
    requires Blank(sep)
    ensures SeparatorAt(BlankLine, block + sep + rest, |block|) == |sep|
  {
    var t := block + sep + rest;
    assert forall k {:trigger sep[k]} :: 0 <= k < |sep| ==> t[|block| + k] == sep[k];
    assert t[|block|] == sep[0] && t[|block| + 1] == sep[1];
    assert |sep| > 2 ==> t[|block| + 2] == sep[2];
    assert |sep| > 3 ==> t[|block| + 3] == sep[3];
  }

  /** A block and a blank line come off the front. */
  lemma BlockComesOff(block: string, sep: string, rest: string)
    requires BlockText(block) && Blank(sep)
    ensures Split(BlankLine, block + sep + rest) == [block] + Split(BlankLine, rest)
  {
    hide SeparatorAt, BlockText, Split;
    var t := block + sep + rest;
    SeparatorFound(block, sep, rest);
    assert t == block + (sep + rest);
    forall i | 0 <= i < |block| ensures SeparatorAt(BlankLine, t, i) == 0 {
      NoSeparatorInside(block, sep + rest, i);
    }
    assert t[..|block|] == block && t[|block| + |sep|..] == rest;
    SplitOnce(BlankLine, t, block, rest);
  }

  lemma LastBlock(block: string)
    requires BlockText(block)
    ensures Split(BlankLine, block) == [block]
  {
    hide SeparatorAt, BlockText;
    forall i | 0 <= i < |block| ensures SeparatorAt(BlankLine, block, i) == 0 {
      NoSeparatorInside(block, "", i);
      assert block + "" == block;
    }
  }

  function Joined(blocks: seq<string>, seps: seq<string>, last: string): string
    requires |blocks| == |seps|
  {
    if blocks == [] then last else blocks[0] + seps[0] + Joined(blocks[1..], seps[1..], last)
  }

  /** Blocks written one after the other with any blank lines between them are read back one by one. */
  lemma {:induction false} JoinedSplits(blocks: seq<string>, seps: seq<string>, last: string)
    requires |blocks| == |seps| && BlockText(last)
    requires forall i :: 0 <= i < |blocks| ==> BlockText(blocks[i]) && Blank(seps[i])
    ensures Split(BlankLine, Joined(blocks, seps, last)) == blocks + [last]
    decreases |blocks|
  {
    hide BlockText, Blank, Split;
    if blocks == [] {
      LastBlock(last);
    } else {
      JoinedSplits(blocks[1..], seps[1..], last);
      BlockComesOff(blocks[0], seps[0], Joined(blocks[1..], seps[1..], last));
      assert [blocks[0]] + (blocks[1..] + [last]) == blocks + [last];
    }
  }

  // ----- lines -----

  lemma LineComesOff(line: string, rest: string)
    requires '\n' !in line && (line != "" ==> line[|line| - 1] != '\r')
    ensures Split(LineEnd, line + "\n" + rest) == [line] + Split(LineEnd, rest)
  {
    hide Split;
    var t := line + "\n" + rest;
    assert t[|line|] == '\n' && forall k {:trigger t[k]} :: 0 <= k < |line| ==> t[k] == line[k];
    assert SeparatorAt(LineEnd, t, |line|) == 1;
    forall i | 0 <= i < |line| ensures SeparatorAt(LineEnd, t, i) == 0 {
      assert t[i] == line[i] && (i + 1 < |line| ==> t[i + 1] == line[i + 1]);
    }
    assert FirstSeparator(LineEnd, t, 0) == |line|;
    assert t[..|line|] == line && t[|line| + 1..] == rest;
    SplitOnce(LineEnd, t, line, rest);
  }

  lemma LastLine(line: string)
    requires '\n' !in line
    ensures Split(LineEnd, line) == [line]
  {
    assert FirstSeparator(LineEnd, line, 0) == |line|;
  }
}
