/** BaseExecutor's retry and fallback loop: every POST after the first needs a proved rejection. */
module Retry {
  /** A subclass hook may veto a retry or replace its delay. */
  datatype Hook = NoHook | Veto | Delay(ms: int)

  /** What one POST led to, with everything the loop asks about it. */
  datatype Reply =
    | Response(
        status: int,
        replaySafe: bool,          // canReplay's memoised answer
        retryAfter: bool,          // the response carries a Retry-After deadline
        hook: Hook,
        abortedAfter: bool,        // the caller aborted while the response was inspected
        abortedWaiting: bool)      // the caller aborted during the retry delay
    | TransportError

  datatype Entry = Entry(attempts: int, delayMs: int)

  const DEFAULT_DELAY_MS := 2000

  /** The merged retry configuration, the number of URLs, and which statuses may move to the next URL. */
  datatype Policy = Policy(retry: map<int, Entry>, fallbackCount: nat, fallbackStatuses: set<int>)

  /** The world answers the n-th POST, and says whether the caller aborted before it. */
  datatype World = World(reply: nat -> Reply, abortedBefore: nat -> bool)

  datatype Sent = Sent(url: nat, reply: Reply)

  datatype Exit = Returned | Aborted | Broken | Exhausted

  function Resolve(p: Policy, status: int): Entry
  {
    if status in p.retry then p.retry[status] else Entry(0, DEFAULT_DELAY_MS)
  }

  predicate Held(r: Reply)
    requires r.Response?
  {
    (r.status == 429 || r.status == 503) && r.retryAfter
  }

  /** tryRetry: may the same URL be tried again after `retries` retries? */
  predicate MayRetry(p: Policy, r: Reply, retries: nat)
    requires r.Response?
  {
    var entry := Resolve(p, r.status);
    && r.replaySafe
    && 0 < entry.attempts && retries < entry.attempts
    && !r.hook.Veto?
    && 0 <= (if r.hook.Delay? then r.hook.ms else entry.delayMs)
  }

  /** shouldRetry, after the proof of rejection. */
  predicate MayFallBack(p: Policy, r: Reply, url: nat)
    requires r.Response?
  {
    r.replaySafe && r.status in p.fallbackStatuses && url + 1 < p.fallbackCount
  }

  datatype Next = Stop(exit: Exit) | Again | Onward

  function Decide(p: Policy, r: Reply, url: nat, retries: nat): Next
  {
    if r.TransportError? then Stop(Broken)
    else if r.abortedAfter then Stop(Aborted)
    else if Held(r) then Stop(Returned)
    else if MayRetry(p, r, retries) then (if r.abortedWaiting then Stop(Aborted) else Again)
    else if MayFallBack(p, r, url) then Onward
    else Stop(Returned)
  }

  // ----- runs -----

  function PostsTo(log: seq<Sent>, url: nat): nat
  {
    if log == [] then 0 else PostsTo(log[..|log| - 1], url) + (if log[|log| - 1].url == url then 1 else 0)
  }

  /** What the loop decides after the last POST of a non-empty log. */
  function Decided(p: Policy, log: seq<Sent>): Next
    requires log != []
  {
    var last, n := log[|log| - 1], PostsTo(log, log[|log| - 1].url);
    Decide(p, last.reply, last.url, if n == 0 then 0 else n - 1)
  }

  /** The next POST goes to `url`. */
  predicate Sends(p: Policy, log: seq<Sent>, url: int)
  {
    if log == [] then url == 0
    else
      var d, last := Decided(p, log), log[|log| - 1].url;
      (d.Again? && url == last) || (d.Onward? && url == last + 1)
  }

  /** A log is a run of the loop when every POST was decided by the log before it. */
  ghost predicate Trace(p: Policy, w: World, log: seq<Sent>)
  {
    forall i :: 0 <= i < |log| ==>
      && log[i].url < p.fallbackCount
      && log[i].reply == w.reply(i) && !w.abortedBefore(i)
      && Sends(p, log[..i], log[i].url)
  }

  /** A bound on the attempts any status is granted. */
  ghost predicate Bounds(p: Policy, max: nat)
  {
    forall s :: s in p.retry ==> p.retry[s].attempts <= max
  }

  // ----- when the loop may stop, told from the log and the configuration -----

  function Last(log: seq<Sent>): Sent
    requires log != []
  {
    log[|log| - 1]
  }

  /** Attempts configured for a status, none when it is not mentioned. */
  function Granted(p: Policy, status: int): int
  {
    if status in p.retry then p.retry[status].attempts else 0
  }

  /** How long to wait before the retry: the hook's word, or the configured or the default delay. */
  function Wait(p: Policy, r: Reply): int
    requires r.Response?
  {
    if r.hook.Delay? then r.hook.ms else if r.status in p.retry then p.retry[r.status].delayMs else 2000
  }

  /** The URL of the last POST has had its retries, or the hook or an impossible delay forbids another one. */
  predicate Spent(p: Policy, log: seq<Sent>)
    requires log != [] && Last(log).reply.Response?
  {
    var r := Last(log).reply;
    PostsTo(log, Last(log).url) - 1 >= Granted(p, r.status) || r.hook.Veto? || Wait(p, r) < 0
  }

  /** A deadline the provider set belongs to somebody else. */
  predicate Deadline(r: Reply)
    requires r.Response?
  {
    (r.status == 429 || r.status == 503) && r.retryAfter
  }

  predicate NoFallback(p: Policy, s: Sent)
    requires s.reply.Response?
  {
    s.reply.status !in p.fallbackStatuses || s.url + 1 >= p.fallbackCount
  }

  /** A response is returned only unproved, under a deadline, or with nothing left to try. */
  predicate RightToReturn(p: Policy, log: seq<Sent>)
  {
    log != [] && Last(log).reply.Response? && !Last(log).reply.abortedAfter
    && (|| !Last(log).reply.replaySafe
        || Deadline(Last(log).reply)
        || (Spent(p, log) && NoFallback(p, Last(log))))
  }

  /** The caller's abort ends it while a response is inspected, or while a retry is waited for. */
  predicate RightToAbort(p: Policy, log: seq<Sent>)
  {
    log != [] && Last(log).reply.Response?
    && var r := Last(log).reply;
    r.abortedAfter || (r.abortedWaiting && r.replaySafe && !Deadline(r) && !Spent(p, log))
  }

  lemma StopsRightly(p: Policy, log: seq<Sent>)
    requires log != [] && PostsTo(log, Last(log).url) > 0
    ensures Decided(p, log) == Stop(Returned) ==> RightToReturn(p, log)
    ensures Decided(p, log) == Stop(Aborted) ==> RightToAbort(p, log)
    ensures Decided(p, log) == Stop(Broken) ==> Last(log).reply.TransportError?
    ensures Decided(p, log).Stop? ==> !Decided(p, log).exit.Exhausted?
    ensures Decided(p, log).Again? ==> Last(log).reply.Response? && !Spent(p, log)
    ensures Decided(p, log).Onward? ==> Last(log).reply.Response? && Spent(p, log) && !NoFallback(p, Last(log))
  {
    hide PostsTo;
  }

  /**
   * The loop. `urlIndex` is decremented before a retry and incremented by every pass, as in the source, and the
   * retry counters live in a map keyed by URL. `max` only bounds the configured attempts for termination.
   */
  method Execute(p: Policy, w: World, ghost max: nat) returns (exit: Exit, log: seq<Sent>)
    requires Bounds(p, max)
    ensures Trace(p, w, log)
    ensures exit.Returned? ==> RightToReturn(p, log)
    ensures exit.Broken? ==> log != [] && Last(log).reply.TransportError?
    ensures exit.Aborted? ==> w.abortedBefore(|log|) || RightToAbort(p, log)
    ensures exit.Exhausted? ==> p.fallbackCount == 0
  {
    hide PostsTo, Trace, MayRetry, MayFallBack, RightToReturn, RightToAbort;
    log := [];
    Empty(p, w);
    var retryAttempts: map<nat, nat> := map[];
    var urlIndex: int := 0;
    while urlIndex < p.fallbackCount
      invariant 0 <= urlIndex <= p.fallbackCount
      invariant Trace(p, w, log) && Sends(p, log, urlIndex)
      invariant forall i :: 0 <= i < |log| ==> log[i].url <= urlIndex
      invariant urlIndex in retryAttempts ==> PostsTo(log, urlIndex) == retryAttempts[urlIndex] <= max
      invariant urlIndex !in retryAttempts ==> PostsTo(log, urlIndex) == 0
      invariant forall u :: u in retryAttempts ==> u <= urlIndex
      invariant urlIndex == p.fallbackCount ==> p.fallbackCount == 0
      decreases p.fallbackCount - urlIndex, if urlIndex in retryAttempts then max - retryAttempts[urlIndex] else max + 1
    {
      if w.abortedBefore(|log|) {
        return Aborted, log;
      }
      if urlIndex !in retryAttempts {
        retryAttempts := retryAttempts[urlIndex := 0];
      }
      var reply := w.reply(|log|);
      Extends(p, w, log, Sent(urlIndex, reply));
      log := log + [Sent(urlIndex, reply)];
      var next := Decide(p, reply, urlIndex, retryAttempts[urlIndex]);
      match next {
        case Stop(why) =>
          StopsRightly(p, log);
          return why, log;
        case Again =>
          RetryBounded(p, reply, retryAttempts[urlIndex], max);
          retryAttempts := retryAttempts[urlIndex := retryAttempts[urlIndex] + 1];
          urlIndex := urlIndex - 1;
        case Onward =>
          OnwardExists(p, reply, urlIndex);
          NeverPosted(log, urlIndex + 1);
      }
      urlIndex := urlIndex + 1;
    }
    exit := Exhausted;
  }

  lemma Empty(p: Policy, w: World)
    ensures Trace(p, w, []) && forall u :: PostsTo([], u) == 0
  {
  }

  lemma RetryBounded(p: Policy, r: Reply, retries: nat, max: nat)
    requires Bounds(p, max) && r.Response? && MayRetry(p, r, retries)
    ensures retries < max
  {
  }

  lemma OnwardExists(p: Policy, r: Reply, url: nat)
    requires r.Response? && MayFallBack(p, r, url)
    ensures url + 1 < p.fallbackCount
  {
  }

  lemma {:induction false} NeverPosted(log: seq<Sent>, url: nat)
    requires forall i :: 0 <= i < |log| ==> log[i].url < url
    ensures PostsTo(log, url) == 0
  {
    if log != [] {
      NeverPosted(log[..|log| - 1], url);
    }
  }

  lemma Extends(p: Policy, w: World, log: seq<Sent>, s: Sent)
    requires Trace(p, w, log) && Sends(p, log, s.url)
    requires s.url < p.fallbackCount && s.reply == w.reply(|log|) && !w.abortedBefore(|log|)
    ensures Trace(p, w, log + [s])
    ensures forall u :: PostsTo(log + [s], u) == PostsTo(log, u) + (if s.url == u then 1 else 0)
  {
    hide Sends;
    var more := log + [s];
    assert more[..|log|] == log;
    forall i | 0 <= i < |more|
      ensures more[i].url < p.fallbackCount && more[i].reply == w.reply(i) && !w.abortedBefore(i)
      ensures Sends(p, more[..i], more[i].url)
    {
      if i < |log| {
        assert more[..i] == log[..i];
      }
    }
  }

  // ----- what the rule means -----

  /** Every POST after the first directly follows a response proved safe to replay, and no reason to hold back. */
  lemma EveryRepeatIsLicensed(p: Policy, w: World, log: seq<Sent>, i: nat)
    requires Trace(p, w, log) && 0 < i < |log|
    ensures var r := log[i - 1].reply;
            && r.Response? && r.replaySafe
            && !r.abortedAfter && !w.abortedBefore(i)
            && !((r.status == 429 || r.status == 503) && r.retryAfter)
            && (log[i].url == log[i - 1].url ==> !r.abortedWaiting && !r.hook.Veto?)
            && (log[i].url != log[i - 1].url ==> log[i].url == log[i - 1].url + 1 && r.status in p.fallbackStatuses)
  {
    hide PostsTo;
    assert log[..i][|log[..i]| - 1] == log[i - 1];
    assert Sends(p, log[..i], log[i].url);
  }

  lemma {:induction false} Posted(log: seq<Sent>)
    requires log != []
    ensures PostsTo(log, Last(log).url) > 0
  {
  }

  /** The next POST goes to the same URL exactly while that has retries left. */
  lemma RepeatsUntilSpent(p: Policy, w: World, log: seq<Sent>, i: nat)
    requires Trace(p, w, log) && i + 1 < |log|
    ensures Last(log[..i + 1]).reply.Response?
    ensures log[i + 1].url == log[i].url <==> !Spent(p, log[..i + 1])
  {
    hide PostsTo, Decide, Spent;
    EveryRepeatIsLicensed(p, w, log, i + 1);
    var head := log[..i + 1];
    assert Last(head) == log[i];
    assert Sends(p, head, log[i + 1].url);
    Posted(head);
    StopsRightly(p, head);
  }

  /** The counter is the number of POSTs in the log that went to the URL. */
  lemma {:induction false} PostsAreCounted(log: seq<Sent>, url: nat)
    ensures PostsTo(log, url) == |set i | 0 <= i < |log| && log[i].url == url|
  {
    var all := set i | 0 <= i < |log| && log[i].url == url;
    if log != [] {
      var n := |log| - 1;
      PostsAreCounted(log[..n], url);
      var before := set i | 0 <= i < |log[..n]| && log[..n][i].url == url;
      assert all == if log[n].url == url then before + {n} else before;
    }
  }

  lemma {:induction false} UrlsAscend(p: Policy, w: World, log: seq<Sent>, i: nat, j: nat)
    requires Trace(p, w, log) && i <= j < |log|
    ensures log[i].url <= log[j].url
    decreases j
  {
    hide Trace;
    if i < j {
      EveryRepeatIsLicensed(p, w, log, j);
      UrlsAscend(p, w, log, i, j - 1);
    }
  }

  lemma TracePrefix(p: Policy, w: World, log: seq<Sent>, n: nat)
    requires Trace(p, w, log) && n <= |log|
    ensures Trace(p, w, log[..n])
  {
    hide Sends;
    assert forall i :: 0 <= i < n ==> log[..n][..i] == log[..i];
  }

  /** No URL is retried more often than the most generous status allows. */
  lemma {:induction false} PostsPerUrl(p: Policy, w: World, log: seq<Sent>, max: nat, url: nat)
    requires Trace(p, w, log) && Bounds(p, max)
    ensures PostsTo(log, url) <= 1 + max
    decreases |log|
  {
    if log != [] {
      var n := |log| - 1;
      var head := log[..n];
      TracePrefix(p, w, log, n);
      PostsPerUrl(p, w, head, max, url);
      if log[n].url == url && n > 0 {
        assert head[n - 1] == log[n - 1];
        if log[n - 1].url == url {
          RetriedWithinBound(p, w, log, max);
        } else {
          forall i | 0 <= i < n ensures head[i].url < url {
            UrlsAscend(p, w, log, i, n - 1);
            UrlsAscend(p, w, log, n - 1, n);
          }
          NeverPosted(head, url);
        }
      }
    }
  }

  lemma RetriedWithinBound(p: Policy, w: World, log: seq<Sent>, max: nat)
    requires Trace(p, w, log) && Bounds(p, max) && |log| >= 2 && log[|log| - 1].url == log[|log| - 2].url
    ensures PostsTo(log[..|log| - 1], log[|log| - 1].url) <= max
  {
    hide PostsTo;
    var n := |log| - 1;
    var head := log[..n];
    assert head[n - 1] == log[n - 1];
    assert Sends(p, log[..n], log[n].url);
    assert Decided(p, head).Again?;
    var posts := PostsTo(head, log[n].url);
    RetryBounded(p, log[n - 1].reply, if posts == 0 then 0 else posts - 1, max);
  }

  function PostsBelow(log: seq<Sent>, n: nat): nat
  {
    if n == 0 then 0 else PostsBelow(log, n - 1) + PostsTo(log, n - 1)
  }

  lemma {:induction false} PostsBelowSnoc(log: seq<Sent>, s: Sent, n: nat)
    ensures PostsBelow(log + [s], n) == PostsBelow(log, n) + (if s.url < n then 1 else 0)
    decreases n
  {
    assert (log + [s])[..|log|] == log;
    if n > 0 {
      PostsBelowSnoc(log, s, n - 1);
    }
  }

  lemma {:induction false} PostsAddUp(log: seq<Sent>, n: nat)
    requires forall i :: 0 <= i < |log| ==> log[i].url < n
    ensures PostsBelow(log, n) == |log|
    decreases |log|
  {
    if log == [] {
      NoPosts(n);
    } else {
      var k := |log| - 1;
      PostsAddUp(log[..k], n);
      PostsBelowSnoc(log[..k], log[k], n);
      assert log == log[..k] + [log[k]];
    }
  }

  lemma {:induction false} NoPosts(n: nat)
    ensures PostsBelow([], n) == 0
  {
    if n > 0 {
      NoPosts(n - 1);
    }
  }

  lemma {:induction false} PostsBelowBound(p: Policy, w: World, log: seq<Sent>, max: nat, n: nat)
    requires Trace(p, w, log) && Bounds(p, max)
    ensures PostsBelow(log, n) <= n * (1 + max)
    decreases n
  {
    hide Trace, Bounds, PostsTo;
    if n > 0 {
      PostsBelowBound(p, w, log, max, n - 1);
      PostsPerUrl(p, w, log, max, n - 1);
      assert n * (1 + max) == (n - 1) * (1 + max) + (1 + max);
    }
  }

  /** However the upstream answers, one request costs at most fallbackCount * (1 + max) POSTs. */
  lemma TotalPosts(p: Policy, w: World, log: seq<Sent>, max: nat)
    requires Trace(p, w, log) && Bounds(p, max)
    ensures |log| <= p.fallbackCount * (1 + max)
  {
    PostsAddUp(log, p.fallbackCount);
    PostsBelowBound(p, w, log, max, p.fallbackCount);
  }
}
