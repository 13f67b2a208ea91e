/**
 * Incremental decoding of a length-delimited stream. Every decoder of the proxy keeps the undecoded tail,
 * appends what the socket delivers and takes complete frames off the front; this module says once what
 * such a loop computes and why it does not matter where the stream was cut.
 */
module Framing {
  import opened Bytes

  /** What the front of the buffer says: wait, give up, or one frame of `size` elements. */
  datatype Look = More | Bad | Frame(size: nat)

  /** `step` consumes one frame and says whether to go on; `bad` records a broken prefix. */
  datatype Decoder<!S, !T> = Decoder(look: seq<T> -> Look, step: (S, seq<T>) -> (S, bool), bad: S -> S)

  datatype Run<S, T> = Run(st: S, rest: seq<T>, stopped: bool)

  /** A verdict about a prefix is final, and every frame makes progress. */
  ghost predicate Stable<T(!new)>(look: seq<T> -> Look)
  {
    && (forall a :: look(a).Frame? ==> 0 < look(a).size <= |a|)
    && (forall a, b :: !look(a).More? ==> look(a + b) == look(a))
  }

  /** Take frames off the front until more input is needed or decoding stops. */
  function Drain<S, T(!new)>(d: Decoder<S, T>, st: S, buf: seq<T>): Run<S, T>
    requires Stable(d.look)
    decreases |buf|
  {
    match d.look(buf)
    case More => Run(st, buf, false)
    case Bad => Run(d.bad(st), buf, true)
    case Frame(n) =>
      var (next, go) := d.step(st, buf[..n]);
      if go then Drain(d, next, buf[n..]) else Run(next, buf[n..], true)
  }

  /** Deliver chunks one at a time. */
  function Deliver<S, T(!new)>(d: Decoder<S, T>, run: Run<S, T>, chunks: seq<seq<T>>): Run<S, T>
    requires Stable(d.look)
    decreases |chunks|
  {
    if chunks == [] || run.stopped then run
    else Deliver(d, Drain(d, run.st, run.rest + chunks[0]), chunks[1..])
  }

  lemma {:induction false} DrainAppend<S, T(!new)>(d: Decoder<S, T>, st: S, a: seq<T>, b: seq<T>)
    requires Stable(d.look)
    ensures var r := Drain(d, st, a);
            Drain(d, st, a + b) == if r.stopped then Run(r.st, r.rest + b, true) else Drain(d, r.st, r.rest + b)
    decreases |a|
  {
    match d.look(a)
    case More =>
    case Bad =>
    case Frame(n) =>
      assert (a + b)[..n] == a[..n];
      assert (a + b)[n..] == a[n..] + b;
      var (next, go) := d.step(st, a[..n]);
      if go {
        DrainAppend(d, next, a[n..], b);
      }
  }

  lemma {:induction false} DrainLeavesTail<S, T(!new)>(d: Decoder<S, T>, st: S, buf: seq<T>)
    requires Stable(d.look)
    ensures var r := Drain(d, st, buf); !r.stopped ==> d.look(r.rest).More?
    decreases |buf|
  {
    if d.look(buf).Frame? {
      var n := d.look(buf).size;
      DrainLeavesTail(d, d.step(st, buf[..n]).0, buf[n..]);
    }
  }

  /** Two runs that nobody can tell apart: once stopped, the unread tail is dead. */
  predicate Same<S(==), T(==)>(x: Run<S, T>, y: Run<S, T>)
  {
    x.st == y.st && x.stopped == y.stopped && (!x.stopped ==> x.rest == y.rest)
  }

  lemma {:induction false} DeliverIsDrain<S, T(!new)>(d: Decoder<S, T>, run: Run<S, T>, chunks: seq<seq<T>>)
    requires Stable(d.look) && !run.stopped && d.look(run.rest).More?
    ensures Same(Deliver(d, run, chunks), Drain(d, run.st, run.rest + Concat(chunks)))
    decreases |chunks|
  {
    if chunks == [] {
      assert run.rest + [] == run.rest;
    } else {
      var head, tail := chunks[0], Concat(chunks[1..]);
      var next := Drain(d, run.st, run.rest + head);
      assert run.rest + Concat(chunks) == (run.rest + head) + tail;
      DrainAppend(d, run.st, run.rest + head, tail);
      if !next.stopped {
        DrainLeavesTail(d, run.st, run.rest + head);
        DeliverIsDrain(d, next, chunks[1..]);
      }
    }
  }

  /** Every way of cutting the same stream is decoded alike. */
  lemma ChunkingIsInvisible<S, T(!new)>(d: Decoder<S, T>, st: S, x: seq<seq<T>>, y: seq<seq<T>>)
    requires Stable(d.look) && d.look([]).More? && Concat(x) == Concat(y)
    ensures Same(Deliver(d, Run(st, [], false), x), Deliver(d, Run(st, [], false), y))
  {
    DeliverIsDrain(d, Run(st, [], false), x);
    DeliverIsDrain(d, Run(st, [], false), y);
    assert [] + Concat(x) == [] + Concat(y);
  }

  // ----- decoding what an encoder produced -----

  /** `f` announces its own length, whatever follows. */
  ghost predicate SelfDelimiting<T(!new)>(look: seq<T> -> Look, f: seq<T>)
  {
    forall tail {:trigger look(f + tail)} :: look(f + tail) == Frame(|f|)
  }

  function StepAll<S, T>(d: Decoder<S, T>, st: S, frames: seq<seq<T>>): (S, bool)
    decreases |frames|
  {
    if frames == [] then (st, true)
    else
      var (next, go) := d.step(st, frames[0]);
      if go then StepAll(d, next, frames[1..]) else (next, false)
  }

  /** Self-delimiting frames come out one by one, in order, and nothing of the tail is consumed. */
  lemma {:induction false} DrainFrames<S, T(!new)>(d: Decoder<S, T>, st: S, frames: seq<seq<T>>, tail: seq<T>)
    requires Stable(d.look) && forall f :: f in frames ==> SelfDelimiting(d.look, f)
    requires StepAll(d, st, frames).1
    ensures Drain(d, st, Concat(frames) + tail) == Drain(d, StepAll(d, st, frames).0, tail)
    decreases |frames|
  {
    if frames == [] {
      assert [] + tail == tail;
    } else {
      var f, more := frames[0], Concat(frames[1..]) + tail;
      var buf := Concat(frames) + tail;
      assert buf == f + more;
      assert SelfDelimiting(d.look, f);
      assert d.look(f + more) == Frame(|f|);
      assert buf[..|f|] == f && buf[|f|..] == more;
      DrainFrames(d, d.step(st, f).0, frames[1..], tail);
    }
  }
}
