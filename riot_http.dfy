/**
 * Calls to the Riot API.
 *
 * The backend (backend/server.js) sends every request through one queue: a
 * job starts only after the previous job settled, each fetch is padded to at
 * least 120 ms, and a reply with status 429 ("Too Many Requests", section 4 of
 * RFC 6585) is retried up to three times after the delay its `Retry-After`
 * header gives (the delay-seconds form of section 10.2.3 of RFC 9110), or
 * after 1500 ms. The older server (server.js) makes one fetch and no retry.
 *
 * The network is a script: `t(k)` is the reply to the k-th fetch the process
 * makes. Waiting is not performed; the durations and waits are recorded.
 */
module RiotHttp {
  import opened Base

  /** The reply to one fetch. `retryAfterMs` is the parsed header times 1000. */
  datatype Reply =
    | Answer(status: int, retryAfterMs: Option<int>, elapsedMs: nat, body: string)
    | NetworkFailure(message: string)

  /** Why a call rejected. */
  datatype UpstreamError =
    | HttpError(status: int, body: string)
    | Network(message: string)

  /**
   * One settled call: its result, how long each fetch occupied the lane
   * (0 for a fetch that rejected), and each retry wait.
   */
  datatype Outcome = Outcome(result: Result<string, UpstreamError>, durations: seq<int>, waits: seq<int>)

  const MinDelayMs: int := 120
  const DefaultRetryMs: int := 1500
  const MaxRetries: int := 3

  /** `res.ok`. */
  predicate IsOk(status: int)
  {
    200 <= status <= 299
  }

  predicate IsRateLimited(r: Reply)
  {
    r.Answer? && r.status == 429
  }

  /** The header's value when it is positive, else the default. */
  function RetryDelay(retryAfterMs: Option<int>): int
  {
    if retryAfterMs.Some? && retryAfterMs.value > 0 then retryAfterMs.value else DefaultRetryMs
  }

  /** How long an answered fetch holds the lane: at least the minimum spacing. */
  function Occupied(elapsedMs: nat): int
  {
    if elapsedMs < MinDelayMs then MinDelayMs else elapsedMs
  }

  /**
   * The retrying call of backend/server.js, from its `attempt`-th try on,
   * whose first fetch is the n-th of the script.
   */
  function Attempt(t: nat -> Reply, n: nat, attempt: nat): (o: Outcome)
    requires 1 <= attempt <= MaxRetries + 1
    ensures 1 <= |o.durations| <= MaxRetries + 2 - attempt
    ensures |o.waits| == |o.durations| - 1
    decreases MaxRetries + 1 - attempt
  {
    match t(n)
    case NetworkFailure(msg) => Outcome(Err(Network(msg)), [0], [])
    case Answer(status, retryAfter, elapsed, body) =>
      if status == 429 && attempt <= MaxRetries then
        var rest := Attempt(t, n + 1, attempt + 1);
        Outcome(rest.result, [Occupied(elapsed)] + rest.durations, [RetryDelay(retryAfter)] + rest.waits)
      else if !IsOk(status) then Outcome(Err(HttpError(status, body)), [Occupied(elapsed)], [])
      else Outcome(Ok(body), [Occupied(elapsed)], [])
  }

  /** A whole call: the first try. */
  function Call(t: nat -> Reply, n: nat): Outcome
  {
    Attempt(t, n, 1)
  }

  /** The one-shot call of server.js. */
  function DirectCall(r: Reply): (res: Result<string, UpstreamError>)
    ensures res.Ok? <==> r.Answer? && IsOk(r.status)
    ensures r.Answer? && !IsOk(r.status) ==> res == Err(HttpError(r.status, r.body))
  {
    match r
    case NetworkFailure(msg) => Err(Network(msg))
    case Answer(status, _, _, body) => if IsOk(status) then Ok(body) else Err(HttpError(status, body))
  }

  /** The k replies from the n-th on are all 429s. */
  predicate RateLimitedRun(t: nat -> Reply, n: nat, k: nat)
    decreases k
  {
    k == 0 || (IsRateLimited(t(n)) && RateLimitedRun(t, n + 1, k - 1))
  }

  /** While the replies are 429s and tries are left, the call retries and keeps going. */
  lemma {:induction false} SkipRateLimits(t: nat -> Reply, n: nat, attempt: nat, k: nat)
    requires 1 <= attempt && attempt + k <= MaxRetries + 1
    requires RateLimitedRun(t, n, k)
    ensures Attempt(t, n, attempt).result == Attempt(t, n + k, attempt + k).result
    ensures |Attempt(t, n, attempt).durations| == k + |Attempt(t, n + k, attempt + k).durations|
    decreases k
  {
    if k > 0 {
      SkipRateLimits(t, n + 1, attempt + 1, k - 1);
    }
  }

  /** Up to three 429s followed by a success: the call succeeds after k + 1 fetches. */
  lemma RateLimitedThenOk(t: nat -> Reply, n: nat, k: nat)
    requires k <= MaxRetries
    requires RateLimitedRun(t, n, k)
    requires t(n + k).Answer? && IsOk(t(n + k).status)
    ensures Call(t, n).result == Ok(t(n + k).body)
    ensures |Call(t, n).durations| == k + 1
  {
    SkipRateLimits(t, n, 1, k);
  }

  /** A fourth 429 in a row is not retried: the call rejects with it after four fetches. */
  lemma FourRateLimitsReject(t: nat -> Reply, n: nat)
    requires RateLimitedRun(t, n, MaxRetries)
    requires IsRateLimited(t(n + MaxRetries))
    ensures Call(t, n).result == Err(HttpError(429, t(n + MaxRetries).body))
    ensures |Call(t, n).durations| == MaxRetries + 1
  {
    SkipRateLimits(t, n, 1, MaxRetries);
  }

  /**
   * The i-th fetch of a call held the lane for its own elapsed time padded to
   * the minimum spacing, or for no time when it rejected.
   */
  lemma {:induction false} FetchIsSpaced(t: nat -> Reply, n: nat, attempt: nat, i: nat)
    requires 1 <= attempt <= MaxRetries + 1
    requires i < |Attempt(t, n, attempt).durations|
    ensures t(n + i).Answer? ==> Attempt(t, n, attempt).durations[i] == Occupied(t(n + i).elapsedMs) >= MinDelayMs
    ensures t(n + i).NetworkFailure? ==> Attempt(t, n, attempt).durations[i] == 0
    decreases i
  {
    if i > 0 {
      FetchIsSpaced(t, n + 1, attempt + 1, i - 1);
      assert n + 1 + (i - 1) == n + i;
    }
  }

  /** A wait follows only a 429, and lasts what its header says, or 1500 ms. */
  lemma {:induction false} WaitsFollowRateLimits(t: nat -> Reply, n: nat, attempt: nat)
    requires 1 <= attempt <= MaxRetries + 1
    ensures WaitsFollow(t, n, Attempt(t, n, attempt).waits)
    decreases MaxRetries + 1 - attempt
  {
    if IsRateLimited(t(n)) && attempt <= MaxRetries {
      WaitsFollowRateLimits(t, n + 1, attempt + 1);
      AttemptRetried(t, n, attempt);
      WaitsFollowCons(t, n, Attempt(t, n + 1, attempt + 1).waits);
    } else {
      AttemptSettled(t, n, attempt);
    }
  }

  /** Each wait of a call starting at fetch n follows a 429 of the matching fetch and lasts what that reply asked for. */
  predicate WaitsFollow(t: nat -> Reply, n: nat, waits: seq<int>)
    decreases |waits|
  {
    waits == [] ||
    (IsRateLimited(t(n)) && waits[0] == RetryDelay(t(n).retryAfterMs) && WaitsFollow(t, n + 1, waits[1..]))
  }

  lemma WaitsFollowCons(t: nat -> Reply, n: nat, waits: seq<int>)
    requires IsRateLimited(t(n)) && WaitsFollow(t, n + 1, waits)
    ensures WaitsFollow(t, n, [RetryDelay(t(n).retryAfterMs)] + waits)
  {
    assert ([RetryDelay(t(n).retryAfterMs)] + waits)[1..] == waits;
  }

  /** Wait i follows the 429 of fetch n + i. */
  lemma {:induction false} WaitsFollowAt(t: nat -> Reply, n: nat, waits: seq<int>, i: nat)
    requires WaitsFollow(t, n, waits) && i < |waits|
    ensures IsRateLimited(t(n + i)) && waits[i] == RetryDelay(t(n + i).retryAfterMs)
    decreases i
  {
    if i > 0 {
      WaitsFollowAt(t, n + 1, waits[1..], i - 1);
      assert n + 1 + (i - 1) == n + i;
    }
  }

  /** A 429 with tries left: one wait, then the rest of the call from the next fetch. */
  lemma AttemptRetried(t: nat -> Reply, n: nat, attempt: nat)
    requires 1 <= attempt <= MaxRetries && IsRateLimited(t(n))
    ensures Attempt(t, n, attempt).waits == [RetryDelay(t(n).retryAfterMs)] + Attempt(t, n + 1, attempt + 1).waits
  {
  }

  lemma AttemptSettled(t: nat -> Reply, n: nat, attempt: nat)
    requires 1 <= attempt <= MaxRetries + 1 && !(IsRateLimited(t(n)) && attempt <= MaxRetries)
    ensures Attempt(t, n, attempt).waits == []
  {
  }

  /** A 429 with tries left: the fetch and its wait come in front of the rest of the call. */
  lemma AttemptRetries(t: nat -> Reply, n: nat, attempt: nat)
    requires 1 <= attempt <= MaxRetries && IsRateLimited(t(n))
    ensures Attempt(t, n, attempt) ==
      Prepend([Occupied(t(n).elapsedMs)], [RetryDelay(t(n).retryAfterMs)], Attempt(t, n + 1, attempt + 1))
  {
  }

  /** Any other reply ends the call with what the one-shot call would give, after one fetch. */
  lemma AttemptStops(t: nat -> Reply, n: nat, attempt: nat)
    requires 1 <= attempt <= MaxRetries + 1 && !(IsRateLimited(t(n)) && attempt <= MaxRetries)
    ensures Attempt(t, n, attempt) ==
      Outcome(DirectCall(t(n)), [if t(n).Answer? then Occupied(t(n).elapsedMs) else 0], [])
  {
  }

  /**
   * The body of the `while (true)` loop for one reply: a 429 with tries left
   * is retried; anything else settles the call as the one-shot call would.
   * `took` is how long the fetch held the lane.
   */
  method Examine(reply: Reply, attempt: nat) returns (retry: bool, took: int, r: Result<string, UpstreamError>)
    ensures retry <==> IsRateLimited(reply) && attempt <= MaxRetries
    ensures took == if reply.Answer? then Occupied(reply.elapsedMs) else 0
    ensures !retry ==> r == DirectCall(reply)
  {
    took := 0;
    retry := false;
    r := Err(Network(""));
    if reply.NetworkFailure? {
      r := Err(Network(reply.message));
    } else {
      took := Occupied(reply.elapsedMs);
      if reply.status == 429 && attempt <= MaxRetries {
        retry := true;
      } else if !IsOk(reply.status) {
        r := Err(HttpError(reply.status, reply.body));
      } else {
        r := Ok(reply.body);
      }
    }
  }

  /** A retried 429 moves one fetch and one wait from the rest of the call to what is done. */
  lemma RetryKeepsCall(t: nat -> Reply, n0: nat, n: nat, attempt: nat, durations: seq<int>, waits: seq<int>)
    requires 1 <= attempt <= MaxRetries && IsRateLimited(t(n))
    requires Call(t, n0) == Prepend(durations, waits, Attempt(t, n, attempt))
    ensures Call(t, n0) ==
      Prepend(durations + [Occupied(t(n).elapsedMs)], waits + [RetryDelay(t(n).retryAfterMs)], Attempt(t, n + 1, attempt + 1))
  {
    AttemptRetries(t, n, attempt);
    PrependTwice(durations, waits, [Occupied(t(n).elapsedMs)], [RetryDelay(t(n).retryAfterMs)], Attempt(t, n + 1, attempt + 1));
  }

  /** Any other reply completes the call. */
  lemma StopSettlesCall(t: nat -> Reply, n0: nat, n: nat, attempt: nat, durations: seq<int>, waits: seq<int>)
    requires 1 <= attempt <= MaxRetries + 1 && !(IsRateLimited(t(n)) && attempt <= MaxRetries)
    requires Call(t, n0) == Prepend(durations, waits, Attempt(t, n, attempt))
    ensures Call(t, n0) ==
      Outcome(DirectCall(t(n)), durations + [if t(n).Answer? then Occupied(t(n).elapsedMs) else 0], waits)
  {
    AttemptStops(t, n, attempt);
    assert waits + [] == waits;
  }

  /** Without a 429 first, the retrying call settles like the one-shot call, in one fetch. */
  lemma CallWithoutRateLimit(t: nat -> Reply, n: nat)
    requires !IsRateLimited(t(n))
    ensures Call(t, n).result == DirectCall(t(n))
    ensures |Call(t, n).durations| == 1
  {
  }

  // ---------------------------------------------------------------------
  // The queue
  // ---------------------------------------------------------------------

  datatype Settled = Settled(url: string, firstFetch: nat, outcome: Outcome)

  /** Earlier fetches and waits in front of the rest of a call. */
  function Prepend(durations: seq<int>, waits: seq<int>, o: Outcome): Outcome
  {
    Outcome(o.result, durations + o.durations, waits + o.waits)
  }

  lemma PrependTwice(d1: seq<int>, w1: seq<int>, d2: seq<int>, w2: seq<int>, o: Outcome)
    ensures Prepend(d1, w1, Prepend(d2, w2, o)) == Prepend(d1 + d2, w1 + w2, o)
  {
    assert d1 + (d2 + o.durations) == (d1 + d2) + o.durations;
    assert w1 + (w2 + o.waits) == (w1 + w2) + o.waits;
  }

  /**
   * The jobs for `urls`, run one after another from the n-th fetch on. A
   * rejected job does not stop the ones behind it: every job settles, and
   * each starts with the fetch after the last one of the job before it,
   * whatever that job settled to.
   */
  function Chain(t: nat -> Reply, n: nat, urls: seq<string>): (c: seq<Settled>)
    ensures |c| == |urls|
    decreases |urls|
  {
    if urls == [] then []
    else
      var o := Call(t, n);
      [Settled(urls[0], n, o)] + Chain(t, n + |o.durations|, urls[1..])
  }

  /** Job i is the i-th url's, and settles to a fresh call made from its own first fetch on. */
  lemma {:induction false} ChainJob(t: nat -> Reply, n: nat, urls: seq<string>, i: nat)
    requires i < |urls|
    ensures Chain(t, n, urls)[i].url == urls[i]
    ensures Chain(t, n, urls)[i].outcome == Call(t, Chain(t, n, urls)[i].firstFetch)
    ensures i == 0 ==> Chain(t, n, urls)[i].firstFetch == n
    decreases |urls|
  {
    if i == 0 {
      ChainHead(t, n, urls);
    } else {
      ChainTail(t, n, urls, i);
      ChainJob(t, n + |Call(t, n).durations|, urls[1..], i - 1);
    }
  }

  /** Each job starts with the fetch right after the last one of the job before it. */
  lemma {:induction false} ChainConsecutive(t: nat -> Reply, n: nat, urls: seq<string>, i: nat)
    requires 0 < i < |urls|
    ensures Chain(t, n, urls)[i].firstFetch ==
      Chain(t, n, urls)[i - 1].firstFetch + |Chain(t, n, urls)[i - 1].outcome.durations|
    decreases |urls|
  {
    if i > 1 {
      ChainTail(t, n, urls, i);
      ChainTail(t, n, urls, i - 1);
      ChainConsecutive(t, n + |Call(t, n).durations|, urls[1..], i - 1);
    } else {
      ChainSecond(t, n, urls);
    }
  }

  /** The second job starts right after the first. */
  lemma ChainSecond(t: nat -> Reply, n: nat, urls: seq<string>)
    requires 1 < |urls|
    ensures Chain(t, n, urls)[1].firstFetch == n + |Call(t, n).durations|
    ensures Chain(t, n, urls)[0].firstFetch == n && Chain(t, n, urls)[0].outcome == Call(t, n)
  {
    ChainHead(t, n, urls);
    ChainTail(t, n, urls, 1);
    ChainHead(t, n + |Call(t, n).durations|, urls[1..]);
  }

  /** The first job starts at the first fetch. */
  lemma ChainHead(t: nat -> Reply, n: nat, urls: seq<string>)
    requires urls != []
    ensures Chain(t, n, urls)[0] == Settled(urls[0], n, Call(t, n))
  {
  }

  /** Job i is job i - 1 of the jobs after the first. */
  lemma ChainTail(t: nat -> Reply, n: nat, urls: seq<string>, i: nat)
    requires 0 < i < |urls|
    ensures Chain(t, n, urls)[i] == Chain(t, n + |Call(t, n).durations|, urls[1..])[i - 1]
    ensures urls[i] == urls[1..][i - 1]
  {
    ChainStep(t, n, urls);
  }

  /** The fetch index after the jobs for `urls` have run. */
  function ChainEnd(t: nat -> Reply, n: nat, urls: seq<string>): nat
    decreases |urls|
  {
    if urls == [] then n else ChainEnd(t, n + |Call(t, n).durations|, urls[1..])
  }

  lemma ChainStep(t: nat -> Reply, n: nat, urls: seq<string>)
    requires urls != []
    ensures Chain(t, n, urls) == [Settled(urls[0], n, Call(t, n))] + Chain(t, n + |Call(t, n).durations|, urls[1..])
    ensures ChainEnd(t, n, urls) == ChainEnd(t, n + |Call(t, n).durations|, urls[1..])
  {
  }

  /** Running the first pending job moves it from the chain to the settled jobs. */
  lemma DrainStep(t: nat -> Reply, n: nat, urls: seq<string>, done: seq<Settled>)
    requires urls != []
    ensures var job := Settled(urls[0], n, Call(t, n));
      var m := n + |Call(t, n).durations|;
      && (done + [job]) + Chain(t, m, urls[1..]) == done + Chain(t, n, urls)
      && ChainEnd(t, m, urls[1..]) == ChainEnd(t, n, urls)
  {
    ChainStep(t, n, urls);
    AppendAssoc(done, Settled(urls[0], n, Call(t, n)), Chain(t, n + |Call(t, n).durations|, urls[1..]));
  }

  lemma AppendAssoc(a: seq<Settled>, x: Settled, b: seq<Settled>)
    ensures (a + [x]) + b == a + ([x] + b)
  {
  }

  /**
   * The queued job of `riotGetJson`: the `while (true)` retry loop, from the
   * n0-th fetch on. A 429 with tries left goes round again, anything else
   * settles the job.
   */
  method RunJob(t: nat -> Reply, n0: nat) returns (o: Outcome)
    ensures o == Call(t, n0)
  {
    var n, attempt := n0, 1;
    var durations: seq<int> := [];
    var waits: seq<int> := [];
    var retry := true;
    var r: Result<string, UpstreamError> := Err(Network(""));
    while retry
      invariant 1 <= attempt <= MaxRetries + 1
      invariant retry ==> Call(t, n0) == Prepend(durations, waits, Attempt(t, n, attempt))
      invariant !retry ==> Call(t, n0) == Outcome(r, durations, waits)
      decreases if retry then 1 else 0, MaxRetries + 1 - attempt
    {
      retry, durations, waits, r := JobPass(t, n0, n, attempt, durations, waits);
      n := n + 1;
      if retry {
        attempt := attempt + 1;
      }
    }
    o := Outcome(r, durations, waits);
  }

  /**
   * One pass of the retry loop: fetch n is made; a 429 with tries left adds
   * its time and its wait and asks for another pass, anything else settles
   * the call.
   */
  method JobPass(t: nat -> Reply, n0: nat, n: nat, attempt: nat, durations: seq<int>, waits: seq<int>)
    returns (retry: bool, durations': seq<int>, waits': seq<int>, r: Result<string, UpstreamError>)
    requires 1 <= attempt <= MaxRetries + 1
    requires Call(t, n0) == Prepend(durations, waits, Attempt(t, n, attempt))
    ensures retry ==> attempt <= MaxRetries && Call(t, n0) == Prepend(durations', waits', Attempt(t, n + 1, attempt + 1))
    ensures !retry ==> Call(t, n0) == Outcome(r, durations', waits')
  {
    var reply := t(n);
    var took, res;
    retry, took, res := Examine(reply, attempt);
    r := res;
    if retry {
      RetryKeepsCall(t, n0, n, attempt, durations, waits);
      durations', waits' := durations + [took], waits + [RetryDelay(reply.retryAfterMs)];
    } else {
      StopSettlesCall(t, n0, n, attempt, durations, waits);
      durations', waits' := durations + [took], waits;
    }
  }

  /** The module-level `riotQueue`: jobs waiting their turn and the jobs already settled. */
  class RiotQueue {
    const transport: nat -> Reply
    var sent: nat
    var pending: seq<string>
    var settled: seq<Settled>

    constructor (transport: nat -> Reply)
      ensures this.transport == transport
      ensures sent == 0 && pending == [] && settled == []
    {
      this.transport := transport;
      sent := 0;
      pending := [];
      settled := [];
    }

    /** `riotQueue.then(runInQueue)`: the job waits behind every earlier one. */
    method Enqueue(url: string)
      modifies this
      ensures pending == old(pending) + [url]
      ensures sent == old(sent) && settled == old(settled)
    {
      pending := pending + [url];
    }

    /** Runs the oldest pending job: the `while (true)` retry loop. */
    method RunNext() returns (r: Result<string, UpstreamError>)
      requires pending != []
      modifies this
      ensures r == Call(transport, old(sent)).result
      ensures sent == old(sent) + |Call(transport, old(sent)).durations|
      ensures pending == old(pending)[1..]
      ensures settled == old(settled) + [Settled(old(pending)[0], old(sent), Call(transport, old(sent)))]
    {
      var url := pending[0];
      var o := RunJob(transport, sent);
      settled := settled + [Settled(url, sent, o)];
      sent := sent + |o.durations|;
      pending := pending[1..];
      r := o.result;
    }

    /** Runs every pending job in order; a rejected job does not stop the rest. */
    method Drain()
      modifies this
      ensures pending == []
      ensures settled == old(settled) + Chain(transport, old(sent), old(pending))
      ensures sent == ChainEnd(transport, old(sent), old(pending))
    {
      ghost var all := settled + Chain(transport, sent, pending);
      ghost var end := ChainEnd(transport, sent, pending);
      while pending != []
        invariant settled + Chain(transport, sent, pending) == all
        invariant ChainEnd(transport, sent, pending) == end
        decreases |pending|
      {
        ghost var s0, p0, done := sent, pending, settled;
        var _ := RunNext();
        DrainStep(transport, s0, p0, done);
      }
      assert settled + [] == settled;
    }

    /**
     * `riotGetJson(url)`: the job is queued behind the pending ones and the
     * caller gets its own result once the queue reaches it.
     */
    method GetJson(url: string) returns (r: Result<string, UpstreamError>)
      modifies this
      ensures pending == []
      ensures settled == old(settled) + Chain(transport, old(sent), old(pending) + [url])
      ensures r == settled[|settled| - 1].outcome.result
    {
      Enqueue(url);
      Drain();
      r := settled[|settled| - 1].outcome.result;
    }
  }
}
