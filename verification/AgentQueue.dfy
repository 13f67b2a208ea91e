/** The AgentService duplex stream: socket events on one side, a single reader on the other. */
module AgentQueue {
  import opened Bytes

  type Chunk = seq<byte>

  datatype Failure = TooLarge | ConnectionClosed | Raised(id: int)

  /** What a waiting read is woken with. */
  datatype Wake = Value(chunk: Chunk) | EndMark | Nothing

  /** The reader between calls, suspended on its promise, or woken and about to continue. */
  datatype Reader = Idle | Waiting | Woken(wake: Wake)

  datatype Result = Got(chunk: Chunk) | Finished | Threw(failure: Failure)

  /** The closure's variables, plus two histories: chunks accepted from the socket and results of reads. */
  datatype Queue = Queue(
    chunks: seq<Chunk>,
    reader: Reader,
    ended: bool,
    error: Option<Failure>,
    closed: bool,
    headersSettled: bool,
    responseBytes: nat,
    accepted: seq<Chunk>,
    log: seq<Result>)

  const START := Queue([], Idle, false, None, false, false, 0, [], [])

  datatype Event =
    | Data(chunk: Chunk)
    | End
    | SocketClosed
    | Error(failure: Failure)             // client or request error, header deadline, caller abort
    | Response(tooLarge: bool)
    | CloseCall
    | Read
    | Resume

  function WakeUp(q: Queue, w: Wake): Queue
  {
    if q.reader.Waiting? then q.(reader := Woken(w)) else q
  }

  function FailQueue(q: Queue, e: Failure): Queue
  {
    if q.error.Some? then q
    else WakeUp(q.(error := Some(e), ended := true, chunks := [], headersSettled := true), Nothing).(closed := true)
  }

  function OnData(max: nat, q: Queue, c: Chunk): Queue
  {
    if q.closed || q.ended then q
    else
      var q := q.(responseBytes := q.responseBytes + |c|);
      if q.responseBytes > max then FailQueue(q, TooLarge)
      else
        var q := q.(accepted := q.accepted + [c]);
        if q.reader.Waiting? then WakeUp(q, Value(c)) else q.(chunks := q.chunks + [c])
  }

  function OnEnd(q: Queue): Queue
  {
    if q.closed || q.ended then q
    else if !q.headersSettled then FailQueue(q, ConnectionClosed)
    else WakeUp(q.(ended := true), EndMark).(closed := true)
  }

  function OnResponse(q: Queue, tooLarge: bool): Queue
  {
    if q.headersSettled then q
    else if tooLarge then FailQueue(q, TooLarge)
    else q.(headersSettled := true)
  }

  /** The synchronous part of read(). */
  function OnRead(q: Queue): Queue
  {
    if !q.reader.Idle? then q
    else if q.chunks != [] then q.(chunks := q.chunks[1..], log := q.log + [Got(q.chunks[0])])
    else if q.ended then q.(log := q.log + [if q.error.Some? then Threw(q.error.value) else Finished])
    else q.(reader := Waiting)
  }

  /** read() continuing after its await. */
  function OnResume(q: Queue): Queue
  {
    if !q.reader.Woken? then q
    else
      var r := if q.error.Some? then Threw(q.error.value)
               else if q.reader.wake.Value? then Got(q.reader.wake.chunk)
               else Finished;
      q.(reader := Idle, log := q.log + [r])
  }

  function Step(max: nat, q: Queue, ev: Event): Queue
  {
    match ev
    case Data(c) => OnData(max, q, c)
    case End => OnEnd(q)
    case SocketClosed => if !q.closed && !q.ended then FailQueue(q, ConnectionClosed) else q
    case Error(e) => FailQueue(q, e)
    case Response(tooLarge) => OnResponse(q, tooLarge)
    case CloseCall => q.(closed := true)
    case Read => OnRead(q)
    case Resume => OnResume(q)
  }

  function Steps(max: nat, q: Queue, evs: seq<Event>): Queue
    decreases |evs|
  {
    if evs == [] then q else Steps(max, Step(max, q, evs[0]), evs[1..])
  }

  // ----- what every step keeps -----

  function Delivered(log: seq<Result>): seq<Chunk>
  {
    if log == [] then []
    else Delivered(log[..|log| - 1]) + (if log[|log| - 1].Got? then [log[|log| - 1].chunk] else [])
  }

  function Size(cs: seq<Chunk>): nat
  {
    if cs == [] then 0 else Size(cs[..|cs| - 1]) + |cs[|cs| - 1]|
  }

  /** A chunk handed to the reader that its read has not returned yet. */
  function InFlight(q: Queue): seq<Chunk>
  {
    if q.reader.Woken? && q.reader.wake.Value? then [q.reader.wake.chunk] else []
  }

  /** Nothing is lost, duplicated or reordered between socket and reader while there is no error. */
  predicate Conserved(q: Queue)
  {
    Delivered(q.log) + InFlight(q) + q.chunks == q.accepted
  }

  predicate Clean(q: Queue)
  {
    q.error.None?
    && Conserved(q)
    && q.responseBytes == Size(q.accepted)
    && (q.reader.Waiting? ==> q.chunks == [] && !q.ended)
    && (q.reader.Woken? ==> !q.reader.wake.Nothing?)
    && (q.reader.Woken? && q.reader.wake.EndMark? ==> q.ended && q.chunks == [])
    && (Finished in q.log ==> q.ended && q.chunks == [] && InFlight(q) == [])
  }

  predicate Broken(q: Queue)
  {
    q.error.Some? && q.ended && q.chunks == [] && !q.reader.Waiting? && Delivered(q.log) <= q.accepted
  }

  predicate Safe(max: nat, q: Queue)
  {
    (Clean(q) || Broken(q)) && Size(q.accepted) <= max
  }

  lemma DeliveredSnoc(log: seq<Result>, r: Result)
    ensures Delivered(log + [r]) == Delivered(log) + (if r.Got? then [r.chunk] else [])
  {
    assert (log + [r])[..|log|] == log;
  }

  lemma SizeSnoc(cs: seq<Chunk>, c: Chunk)
    ensures Size(cs + [c]) == Size(cs) + |c|
  {
    assert (cs + [c])[..|cs|] == cs;
  }

  lemma FailSafe(max: nat, q: Queue, e: Failure)
    requires Safe(max, q.(responseBytes := Size(q.accepted)))
    ensures Safe(max, FailQueue(q, e)) && FailQueue(q, e).error.Some?
  {
    hide Delivered, Size;
  }

  lemma DataSafe(max: nat, q: Queue, c: Chunk)
    requires Safe(max, q)
    ensures Safe(max, OnData(max, q, c))
  {
    hide Delivered, Size;
    if !q.closed && !q.ended {
      SizeSnoc(q.accepted, c);
      FailSafe(max, q.(responseBytes := q.responseBytes + |c|), TooLarge);
      assert q.chunks == [] ==> Delivered(q.log) + InFlight(q) + q.chunks == Delivered(q.log) + InFlight(q);
      assert Delivered(q.log) + InFlight(q) + (q.chunks + [c]) == (Delivered(q.log) + InFlight(q) + q.chunks) + [c];
      assert Delivered(q.log) + [c] + [] == Delivered(q.log) + [c];
      assert Delivered(q.log) + [] + [] == Delivered(q.log);
    }
  }

  lemma ReadSafe(max: nat, q: Queue)
    requires Safe(max, q)
    ensures Safe(max, OnRead(q))
  {
    hide Delivered, Size;
    if q.reader.Idle? {
      if q.chunks != [] {
        DeliveredSnoc(q.log, Got(q.chunks[0]));
        assert q.chunks == [q.chunks[0]] + q.chunks[1..];
        assert Delivered(q.log) + [] + q.chunks == Delivered(q.log) + [q.chunks[0]] + [] + q.chunks[1..];
      } else if q.ended {
        DeliveredSnoc(q.log, if q.error.Some? then Threw(q.error.value) else Finished);
      }
    }
  }

  lemma ResumeSafe(max: nat, q: Queue)
    requires Safe(max, q)
    ensures Safe(max, OnResume(q))
  {
    hide Delivered, Size;
    if q.reader.Woken? {
      DeliveredSnoc(q.log, OnResume(q).log[|q.log|]);
      assert Delivered(q.log) + InFlight(q) + [] + q.chunks == Delivered(q.log) + InFlight(q) + q.chunks;
    }
  }

  /** Every step from every safe state, in any order, is safe. */
  lemma StepSafe(max: nat, q: Queue, ev: Event)
    requires Safe(max, q)
    ensures Safe(max, Step(max, q, ev))
  {
    hide Delivered, Size, OnData, OnRead, OnResume, FailQueue;
    match ev
    case Data(c) => DataSafe(max, q, c);
    case Read => ReadSafe(max, q);
    case Resume => ResumeSafe(max, q);
    case Error(e) => AnyFailSafe(max, q, e);
    case End => AnyFailSafe(max, q, ConnectionClosed);
    case SocketClosed => AnyFailSafe(max, q, ConnectionClosed);
    case Response(_) => AnyFailSafe(max, q, TooLarge);
    case CloseCall =>
  }

  lemma AnyFailSafe(max: nat, q: Queue, e: Failure)
    requires Safe(max, q)
    ensures Safe(max, FailQueue(q, e))
  {
    hide Delivered, Size;
  }

  lemma {:induction false} StepsSafe(max: nat, q: Queue, evs: seq<Event>)
    requires Safe(max, q)
    ensures Safe(max, Steps(max, q, evs))
    decreases |evs|
  {
    hide Safe, Step;
    if evs != [] {
      StepSafe(max, q, evs[0]);
      StepsSafe(max, Step(max, q, evs[0]), evs[1..]);
    }
  }

  /** The chunks the socket delivered. */
  function Received(evs: seq<Event>): seq<Chunk>
  {
    if evs == [] then [] else (if evs[0].Data? then [evs[0].chunk] else []) + Received(evs[1..])
  }

  lemma StepAccepts(max: nat, q: Queue, ev: Event)
    requires q.error.Some? ==> q.ended
    ensures var n := Step(max, q, ev);
            && (n.error.Some? ==> n.ended)
            && (q.closed || q.ended ==> (n.closed || n.ended) && n.accepted == q.accepted)
            && n.accepted == (if ev.Data? && |n.accepted| != |q.accepted| then q.accepted + [ev.chunk] else q.accepted)
            && (!n.closed && !n.ended && ev.Data? ==> |n.accepted| != |q.accepted|)
  {
  }

  /** What is accepted is an initial part of what the socket delivers, and all of it until the stream closes. */
  lemma {:induction false} AcceptsPrefix(max: nat, q: Queue, evs: seq<Event>)
    requires q.error.Some? ==> q.ended
    ensures var q' := Steps(max, q, evs);
            && q'.accepted <= q.accepted + Received(evs)
            && (q.closed || q.ended ==> (q'.closed || q'.ended) && q'.accepted == q.accepted)
            && (!q'.closed && !q'.ended ==> q'.accepted == q.accepted + Received(evs))
    decreases |evs|
  {
    hide Step;
    if evs != [] {
      var next := Step(max, q, evs[0]);
      var rest := Received(evs[1..]);
      StepAccepts(max, q, evs[0]);
      AcceptsPrefix(max, next, evs[1..]);
      if evs[0].Data? {
        assert q.accepted + Received(evs) == q.accepted + [evs[0].chunk] + rest;
        if |next.accepted| == |q.accepted| {
          assert next.closed || next.ended;
        }
      } else {
        assert Received(evs) == rest;
      }
    }
  }

  lemma {:induction false} PrefixSize(a: seq<Chunk>, b: seq<Chunk>)
    requires a <= b
    ensures Size(a) <= Size(b)
    decreases |b|
  {
    if |a| < |b| {
      PrefixSize(a, b[..|b| - 1]);
    } else {
      assert a == b;
    }
  }

  /** In every run, the chunks reads returned are an in-order prefix of those received and within the byte limit. */
  lemma DeliveredIsBoundedPrefix(max: nat, evs: seq<Event>)
    ensures var q := Steps(max, START, evs);
            Delivered(q.log) <= Received(evs) && Size(Delivered(q.log)) <= max
  {
    hide Step, Size, Delivered;
    var q := Steps(max, START, evs);
    AcceptsPrefix(max, START, evs);
    assert [] + Received(evs) == Received(evs);
    assert Safe(max, START) by { StartIsSafe(max); }
    StepsSafe(max, START, evs);
    assert Delivered(q.log) <= Delivered(q.log) + InFlight(q) + q.chunks;
    PrefixSize(Delivered(q.log), q.accepted);
  }

  lemma StartIsSafe(max: nat)
    ensures Safe(max, START)
  {
  }

  /** An error stays, and a stream closed before its end is never ended by anything but an error. */
  lemma {:induction false} ClosedStays(max: nat, q: Queue, evs: seq<Event>)
    ensures var q' := Steps(max, q, evs);
            && (q.error.Some? ==> q'.error.Some?)
            && (q.closed && !q.ended && q'.ended ==> q'.error.Some?)
    decreases |evs|
  {
    hide Delivered, Size;
    if evs != [] {
      ClosedStays(max, Step(max, q, evs[0]), evs[1..]);
    }
  }

  /** A stream that ended without error took in everything the socket delivered before its end event. */
  lemma {:induction false} EndsAtEndEvent(max: nat, q: Queue, evs: seq<Event>) returns (k: nat)
    requires q.error.None? && !q.ended && !q.closed
    requires var q' := Steps(max, q, evs); q'.error.None? && q'.ended
    ensures k < |evs| && evs[k].End? && Steps(max, q, evs).accepted == q.accepted + Received(evs[..k])
    decreases |evs|
  {
    hide Delivered, Size, Step;
    var next, rest := Step(max, q, evs[0]), evs[1..];
    FirstStep(max, q, evs[0]);
    ClosedStays(max, next, rest);
    if next.ended {
      k := 0;
      AcceptsPrefix(max, next, rest);
    } else {
      var m := EndsAtEndEvent(max, next, rest);
      k := m + 1;
      assert evs[..k][1..] == rest[..m];
      assert q.accepted + Received(evs[..k]) == q.accepted + Received([evs[0]]) + Received(rest[..m]);
    }
  }

  lemma FirstStep(max: nat, q: Queue, ev: Event)
    requires q.error.None? && !q.ended && !q.closed
    ensures var n := Step(max, q, ev);
            n.error.None? ==>
              && (n.ended ==> ev.End? && n.accepted == q.accepted)
              && (!n.ended ==> n.accepted == q.accepted + Received([ev]))
  {
    assert Received([ev]) == if ev.Data? then [ev.chunk] else [];
  }

  /**
   * Once a read of a run without error has reported the end, the reads have returned exactly the chunks that the
   * socket delivered before its end event.
   */
  lemma FinishedMeansAllDelivered(max: nat, evs: seq<Event>) returns (k: nat)
    requires var q := Steps(max, START, evs); q.error.None? && Finished in q.log
    ensures k < |evs| && evs[k].End? && Delivered(Steps(max, START, evs).log) == Received(evs[..k])
  {
    hide Step, Size, Delivered;
    StartIsSafe(max);
    StepsSafe(max, START, evs);
    k := EndsAtEndEvent(max, START, evs);
    assert [] + Received(evs[..k]) == Received(evs[..k]);
  }

  function Reads(n: nat): seq<Event>
  {
    seq(n, _ => Read)
  }

  /** After a clean end, as many reads as chunks are queued deliver them all, and the next one reports the end. */
  lemma {:induction false} CleanEndDelivers(max: nat, q: Queue)
    requires Safe(max, q) && q.error.None? && q.ended && q.reader.Idle?
    ensures var q' := Steps(max, q, Reads(|q.chunks| + 1));
            && Delivered(q'.log) == q.accepted == q'.accepted
            && q'.log != [] && q'.log[|q'.log| - 1] == Finished
    decreases |q.chunks|
  {
    hide Delivered, Size;
    var n := |q.chunks|;
    var next := Step(max, q, Read);
    assert Reads(n + 1)[1..] == Reads(n) && Reads(n + 1)[0] == Read;
    ReadSafe(max, q);
    if n == 0 {
      assert Steps(max, next, Reads(0)) == next;
      DeliveredSnoc(q.log, Finished);
    } else {
      CleanEndDelivers(max, next);
    }
  }

  /**
   * So after any run that ended without error, a read that was just woken and then reading on yield all chunks
   * before the end event, and then the end.
   */
  lemma CleanRunDelivers(max: nat, evs: seq<Event>) returns (k: nat)
    requires var q := Steps(max, START, evs); q.error.None? && q.ended
    ensures k < |evs| && evs[k].End?
    ensures var q := Steps(max, START, evs);
            var log := Steps(max, Step(max, q, Resume), Reads(|q.chunks| + 1)).log;
            Delivered(log) == Received(evs[..k]) && log != [] && log[|log| - 1] == Finished
  {
    hide Size, Delivered, Step, Safe, Steps;
    StartIsSafe(max);
    StepsSafe(max, START, evs);
    k := EndsAtEndEvent(max, START, evs);
    assert [] + Received(evs[..k]) == Received(evs[..k]);
    var q := Steps(max, START, evs);
    ResumeAtEnd(max, q);
    CleanEndDelivers(max, Step(max, q, Resume));
  }

  lemma ResumeAtEnd(max: nat, q: Queue)
    requires Safe(max, q) && q.error.None? && q.ended
    ensures var n := Step(max, q, Resume);
            Safe(max, n) && n.error.None? && n.ended && n.reader.Idle? && n.chunks == q.chunks
              && n.accepted == q.accepted
  {
    hide Size, Delivered;
    ResumeSafe(max, q);
  }

  lemma {:induction false} SizeAppend(a: seq<Chunk>, b: seq<Chunk>)
    ensures Size(a + b) == Size(a) + Size(b)
    decreases |b|
  {
    if b == [] {
      assert a + b == a;
    } else {
      var n := |b| - 1;
      assert (a + b)[..|a| + n] == a + b[..n];
      SizeAppend(a, b[..n]);
    }
  }

  /** Headers accepted, not ended and not closed. */
  predicate Open(q: Queue)
  {
    q.error.None? && !q.ended && !q.closed && q.headersSettled
  }

  /** What happens on a connection that nothing disturbs, before its end. */
  predicate Uneventful(ev: Event)
  {
    ev.Data? || ev.Read? || ev.Resume? || ev == Response(false)
  }

  function ChunkOf(ev: Event): seq<Chunk>
  {
    if ev.Data? then [ev.chunk] else []
  }

  lemma ChunkSize(ev: Event)
    ensures Size(ChunkOf(ev)) == if ev.Data? then |ev.chunk| else 0
  {
    if ev.Data? {
      SizeSnoc([], ev.chunk);
      assert [] + [ev.chunk] == [ev.chunk];
    }
  }

  lemma OpenStep(max: nat, q: Queue, ev: Event)
    requires Safe(max, q) && Open(q) && Uneventful(ev) && Size(q.accepted) + Size(ChunkOf(ev)) <= max
    ensures var n := Step(max, q, ev); Safe(max, n) && Open(n) && n.accepted == q.accepted + ChunkOf(ev)
  {
    hide Delivered, Size;
    ChunkSize(ev);
    StepSafe(max, q, ev);
  }

  lemma ReceivedFirst(evs: seq<Event>)
    requires evs != []
    ensures Received(evs) == ChunkOf(evs[0]) + Received(evs[1..])
  {
  }

  /** The stream stays open with everything received accepted. */
  lemma {:induction false} StaysOpen(max: nat, q: Queue, evs: seq<Event>)
    requires Safe(max, q) && Open(q) && Size(q.accepted) + Size(Received(evs)) <= max
    requires forall i :: 0 <= i < |evs| ==> Uneventful(evs[i])
    ensures var q' := Steps(max, q, evs); Open(q') && q'.accepted == q.accepted + Received(evs)
    decreases |evs|
  {
    hide Delivered, Size, Safe, Open, Uneventful, Step, ChunkOf;
    if evs == [] {
      assert q.accepted + [] == q.accepted;
    } else {
      var ev, rest := evs[0], evs[1..];
      ReceivedFirst(evs);
      SizeAppend(ChunkOf(ev), Received(rest));
      SizeAppend(q.accepted, ChunkOf(ev));
      OpenStep(max, q, ev);
      StaysOpen(max, Step(max, q, ev), rest);
      assert q.accepted + Received(evs) == q.accepted + ChunkOf(ev) + Received(rest);
    }
  }

  /** Accepted headers, chunks within the limit and an end event make a clean end with everything accepted. */
  lemma UneventfulRunEndsCleanly(max: nat, evs: seq<Event>)
    requires evs != [] && evs[0] == Response(false) && Size(Received(evs)) <= max
    requires forall i :: 0 <= i < |evs| ==> Uneventful(evs[i])
    ensures var q := Step(max, Steps(max, START, evs), End); q.error.None? && q.ended && q.accepted == Received(evs)
  {
    hide Delivered, Size, Safe;
    StartIsSafe(max);
    var q := Step(max, START, evs[0]);
    StepSafe(max, START, evs[0]);
    ReceivedFirst(evs);
    assert Received(evs) == Received(evs[1..]) && q.accepted == [];
    NothingWeighsNothing();
    StaysOpen(max, q, evs[1..]);
    assert [] + Received(evs) == Received(evs);
  }

  lemma NothingWeighsNothing()
    ensures Size([]) == 0
  {
  }

  // ----- reads that wait -----

  /** A waiting read on a closed stream was abandoned by a call of close(), and by nothing else. */
  lemma {:induction false} AbandonedOnlyByClose(max: nat, q: Queue, evs: seq<Event>)
    requires Safe(max, q) && !(q.reader.Waiting? && q.closed) && (q.closed && !q.ended ==> CloseCall in evs)
    ensures var q' := Steps(max, q, evs); q'.reader.Waiting? && q'.closed ==> CloseCall in evs
    decreases |evs|
  {
    hide Delivered, Size;
    if evs != [] && CloseCall !in evs {
      var next := Step(max, q, evs[0]);
      StepSafe(max, q, evs[0]);
      assert forall ev :: ev in evs[1..] ==> ev in evs;
      assert evs[0] in evs;
      AbandonedOnlyByClose(max, next, evs[1..]);
    }
  }

  /** Until then every chunk, the end and the loss of the connection wake a waiting read. */
  lemma EventsWakeReader(max: nat, q: Queue, ev: Event)
    requires Safe(max, q) && q.reader.Waiting? && !q.closed && (ev.Data? || ev.End? || ev.SocketClosed?)
    ensures Step(max, q, ev).reader.Woken?
  {
    hide Delivered, Size;
  }

  /** In every run from the start: a read waits on a closed stream only after close() was called. */
  lemma WaitingReadsAreServed(max: nat, evs: seq<Event>)
    requires var q := Steps(max, START, evs); q.reader.Waiting? && CloseCall !in evs
    ensures !Steps(max, START, evs).closed
    ensures forall ev: Event :: ev.Data? || ev.End? || ev.SocketClosed? || ev.Error? ==>
              Step(max, Steps(max, START, evs), ev).reader.Woken?
  {
    hide Delivered, Size;
    StartIsSafe(max);
    StepsSafe(max, START, evs);
    AbandonedOnlyByClose(max, START, evs);
    var q := Steps(max, START, evs);
    forall ev: Event | ev.Data? || ev.End? || ev.SocketClosed? ensures Step(max, q, ev).reader.Woken? {
      EventsWakeReader(max, q, ev);
    }
  }

  /** A read that waits when close() is called is woken by an error or not at all. */
  lemma ClosedReaderWaits(max: nat, q: Queue, ev: Event)
    requires q.reader.Waiting? && q.closed && Safe(max, q)
    ensures Step(max, q, ev).reader.Waiting? <==> !ev.Error? && !(ev.Response? && ev.tooLarge && !q.headersSettled)
  {
    hide Delivered, Size;
  }

  /** `later` continues `earlier` with nothing but the one failure. */
  predicate OnlyThrows(earlier: seq<Result>, later: seq<Result>, e: Failure)
  {
    earlier <= later && forall i :: |earlier| <= i < |later| ==> later[i] == Threw(e)
  }

  /** After the first failure no read returns a chunk, and every read throws that first failure. */
  lemma {:induction false} FailureIsFinal(max: nat, q: Queue, evs: seq<Event>, e: Failure)
    requires Safe(max, q) && q.error == Some(e)
    ensures var q' := Steps(max, q, evs); q'.error == Some(e) && OnlyThrows(q.log, q'.log, e)
    decreases |evs|
  {
    hide Delivered, Size;
    if evs != [] {
      StepSafe(max, q, evs[0]);
      assert Step(max, q, evs[0]).error == Some(e) && OnlyThrows(q.log, Step(max, q, evs[0]).log, e);
      FailureIsFinal(max, Step(max, q, evs[0]), evs[1..], e);
    }
  }

  // ----- the closure as the source writes it -----

  class AgentStream {
    const max: nat
    var chunks: seq<Chunk>
    var reader: Reader
    var ended: bool
    var error: Option<Failure>
    var closed: bool
    var headersSettled: bool
    var responseBytes: nat
    ghost var accepted: seq<Chunk>
    ghost var log: seq<Result>

    ghost function View(): Queue
      reads this
    {
      Queue(chunks, reader, ended, error, closed, headersSettled, responseBytes, accepted, log)
    }

    constructor (max: nat)
      ensures this.max == max && View() == START
    {
      this.max, chunks, reader, ended, error := max, [], Idle, false, None;
      closed, headersSettled, responseBytes, accepted, log := false, false, 0, [], [];
    }

    method Fail(e: Failure)
      modifies this
      ensures View() == FailQueue(old(View()), e)
    {
      if error.Some? { return; }
      error, ended, chunks, headersSettled := Some(e), true, [], true;
      if reader.Waiting? { reader := Woken(Nothing); }
      closed := true;
    }

    method HandleData(c: Chunk)
      modifies this
      ensures View() == OnData(max, old(View()), c)
    {
      if closed || ended { return; }
      responseBytes := responseBytes + |c|;
      if responseBytes > max {
        Fail(TooLarge);
        return;
      }
      accepted := accepted + [c];
      if reader.Waiting? { reader := Woken(Value(c)); } else { chunks := chunks + [c]; }
    }

    method HandleEnd()
      modifies this
      ensures View() == OnEnd(old(View()))
    {
      if closed || ended { return; }
      if !headersSettled {
        Fail(ConnectionClosed);
        return;
      }
      ended := true;
      if reader.Waiting? { reader := Woken(EndMark); }
      closed := true;
    }

    method HandleResponse(tooLarge: bool)
      modifies this
      ensures View() == OnResponse(old(View()), tooLarge)
    {
      if headersSettled { return; }
      if tooLarge { Fail(TooLarge); } else { headersSettled := true; }
    }

    /** The synchronous part of read(): a result, or none when it has to wait. */
    method BeginRead() returns (r: Option<Result>)
      requires reader.Idle?
      modifies this
      ensures View() == OnRead(old(View()))
      ensures r.Some? ==> log == old(log) + [r.value]
      ensures r.None? ==> log == old(log) && reader.Waiting?
    {
      if chunks != [] {
        r := Some(Got(chunks[0]));
        chunks := chunks[1..];
      } else if ended {
        r := Some(if error.Some? then Threw(error.value) else Finished);
      } else {
        reader := Waiting;
        return None;
      }
      log := log + [r.value];
    }

    method ResumeRead() returns (r: Result)
      requires reader.Woken?
      modifies this
      ensures View() == OnResume(old(View())) && log == old(log) + [r]
    {
      r := if error.Some? then Threw(error.value) else if reader.wake.Value? then Got(reader.wake.chunk) else Finished;
      reader, log := Idle, log + [r];
    }
  }
}
