/**
 * The server's own machinery in front of the tRPC routes: the in-memory
 * sliding-window rate limiter (a map from client key to the times of its
 * recent requests) and the search for a free port at start-up. The clock
 * and the probe of a port are parameters.
 */
module ServerCore {
  import opened Common
  import opened Text

  // ------------------------------------------------------------ windows

  /** The timestamps strictly newer than `cutoff`, in their stored order. */
  function InWindow(ts: seq<int>, cutoff: int): (r: seq<int>)
    ensures |r| <= |ts|
    ensures forall i :: 0 <= i < |r| ==> r[i] > cutoff
    ensures forall t :: t in r <==> t in ts && t > cutoff
  {
    if |ts| == 0 then []
    else if ts[0] > cutoff then [ts[0]] + InWindow(ts[1..], cutoff)
    else InWindow(ts[1..], cutoff)
  }

  /** Filtering a list with a later stamp appended filters the list, then keeps the stamp if it is recent. */
  lemma {:induction false} InWindowAppend(ts: seq<int>, t: int, cutoff: int)
    ensures InWindow(ts + [t], cutoff) == InWindow(ts, cutoff) + (if t > cutoff then [t] else [])
  {
    if |ts| == 0 {
      assert ts + [t] == [t];
      assert InWindow([t], cutoff) == (if t > cutoff then [t] else []) + InWindow([], cutoff);
    } else {
      assert (ts + [t])[1..] == ts[1..] + [t];
      InWindowAppend(ts[1..], t, cutoff);
    }
  }

  /** Filtering at an earlier cutoff first changes nothing about a later filter. */
  lemma {:induction false} InWindowTwice(ts: seq<int>, c1: int, c2: int)
    requires c1 <= c2
    ensures InWindow(InWindow(ts, c1), c2) == InWindow(ts, c2)
  {
    if |ts| > 0 {
      InWindowTwice(ts[1..], c1, c2);
      if ts[0] > c1 {
        var rest := InWindow(ts[1..], c1);
        assert ([ts[0]] + rest)[0] == ts[0];
        assert ([ts[0]] + rest)[1..] == rest;
      }
    }
  }

  /** A later cutoff never keeps more timestamps. */
  lemma InWindowShrinks(ts: seq<int>, c1: int, c2: int)
    requires c1 <= c2
    ensures |InWindow(ts, c2)| <= |InWindow(ts, c1)|
  {
    InWindowTwice(ts, c1, c2);
  }

  /** `hits.get(key) || []`: an absent key has no timestamps. */
  function Stored(hits: map<string, seq<int>>, key: string): (ts: seq<int>)
    ensures key in hits ==> ts == hits[key]
    ensures key !in hits ==> ts == []
  {
    if key in hits then hits[key] else []
  }

  /** `req.ip || req.socket.remoteAddress || "unknown"`. */
  function ClientKey(ip: Option<string>, remoteAddress: Option<string>): (key: string)
    ensures ip.Some? && ip.value != "" ==> key == ip.value
    ensures !(ip.Some? && ip.value != "") && remoteAddress.Some? && remoteAddress.value != "" ==>
      key == remoteAddress.value
    ensures !(ip.Some? && ip.value != "") && !(remoteAddress.Some? && remoteAddress.value != "") ==>
      key == "unknown"
    ensures key != ""
  {
    if ip.Some? && ip.value != "" then ip.value
    else if remoteAddress.Some? && remoteAddress.value != "" then remoteAddress.value
    else "unknown"
  }

  /** No key holds more than `max` timestamps in the window that ends at `now`. */
  ghost predicate Bounded(hits: map<string, seq<int>>, windowMs: int, max: int, now: int) {
    forall k :: k in hits ==> |InWindow(hits[k], now - windowMs)| <= max
  }

  /** The bound survives the passing of time. */
  lemma BoundedLater(hits: map<string, seq<int>>, windowMs: int, max: int, now: int, later: int)
    requires Bounded(hits, windowMs, max, now) && now <= later
    ensures Bounded(hits, windowMs, max, later)
  {
    forall k | k in hits
      ensures |InWindow(hits[k], later - windowMs)| <= max
    {
      InWindowShrinks(hits[k], now - windowMs, later - windowMs);
    }
  }

  /** What the periodic cleanup leaves: in-window timestamps only, and no key without any. */
  function Cleaned(hits: map<string, seq<int>>, cutoff: int): (m: map<string, seq<int>>)
    ensures forall k :: k in m ==> k in hits && m[k] == InWindow(hits[k], cutoff) && m[k] != []
    ensures forall k :: k in hits && InWindow(hits[k], cutoff) != [] ==> k in m
  {
    map k | k in hits && InWindow(hits[k], cutoff) != [] :: InWindow(hits[k], cutoff)
  }

  /**
   * With a clock that does not go back, cleanup changes no later decision:
   * every key keeps exactly the timestamps a later request would count.
   */
  lemma CleanupKeepsDecisions(hits: map<string, seq<int>>, cutoff: int, key: string, laterCutoff: int)
    requires cutoff <= laterCutoff
    ensures InWindow(Stored(Cleaned(hits, cutoff), key), laterCutoff) == InWindow(Stored(hits, key), laterCutoff)
  {
    if key in hits {
      InWindowTwice(hits[key], cutoff, laterCutoff);
    }
  }

  /**
   * Part way through the sweep of `orig`: keys still to visit are as they
   * were, visited keys are as `Cleaned` leaves them, and no key is new.
   */
  ghost predicate SweptExcept(orig: map<string, seq<int>>, hits: map<string, seq<int>>, todo: set<string>, cutoff: int) {
    && todo <= orig.Keys
    && (forall k :: k in hits ==> k in orig)
    && (forall k :: k in todo ==> k in hits && hits[k] == orig[k])
    && (forall k :: k in orig && k !in todo ==>
          (k in hits <==> InWindow(orig[k], cutoff) != [])
          && (k in hits ==> hits[k] == InWindow(orig[k], cutoff)))
  }

  /** Visiting one more key keeps the sweep on course. */
  lemma SweepStep(orig: map<string, seq<int>>, hits: map<string, seq<int>>, todo: set<string>, cutoff: int, k: string)
    requires SweptExcept(orig, hits, todo, cutoff) && k in todo
    ensures var valid := InWindow(hits[k], cutoff);
      SweptExcept(orig, if valid == [] then hits - {k} else hits[k := valid], todo - {k}, cutoff)
  {
  }

  /** A finished sweep leaves exactly the cleaned map. */
  lemma SweepDone(orig: map<string, seq<int>>, hits: map<string, seq<int>>, cutoff: int)
    requires SweptExcept(orig, hits, {}, cutoff)
    ensures hits == Cleaned(orig, cutoff)
  {
    assert hits.Keys == Cleaned(orig, cutoff).Keys;
  }

  datatype LimiterResponse = Next | TooManyRequests(status: nat, error: string)

  const TooMany := TooManyRequests(429, "Too many requests, please try again later")

  /** The limiter that guards `/api/trpc`: 100 requests per minute per client. */
  const ApiWindowMs := 60_000
  const ApiMax := 100

  class RateLimiter {
    const windowMs: int
    const max: int
    var hits: map<string, seq<int>>

    /** `createRateLimiter(windowMs, max)`: no client has been seen. */
    constructor(windowMs: int, max: int)
      ensures this.windowMs == windowMs && this.max == max && hits == map[]
      ensures Bounded(hits, windowMs, max, 0)
    {
      this.windowMs, this.max := windowMs, max;
      hits := map[];
    }

    /** The key's timestamps a request at `now` counts. */
    function Recent(key: string, now: int): (ts: seq<int>)
      reads this
      ensures |ts| <= |Stored(hits, key)|
      ensures forall i :: 0 <= i < |ts| ==> ts[i] > now - windowMs
    {
      InWindow(Stored(hits, key), now - windowMs)
    }

    /**
     * The middleware: a client with `max` or more recent requests gets 429
     * and is not recorded; otherwise its recent timestamps plus `now` are
     * stored and the request goes on. No other key changes.
     */
    method Handle(ip: Option<string>, remoteAddress: Option<string>, now: int) returns (response: LimiterResponse)
      modifies this
      ensures var key := ClientKey(ip, remoteAddress);
        && (response == Next <==> |old(Recent(key, now))| < max)
        && (response != Next ==> response == TooMany && hits == old(hits))
        && (response == Next ==> hits == old(hits)[key := old(Recent(key, now)) + [now]])
        && forall k :: k != key ==> Stored(hits, k) == Stored(old(hits), k)
      ensures old(Bounded(hits, windowMs, max, now)) ==> Bounded(hits, windowMs, max, now)
    {
      var key := ClientKey(ip, remoteAddress);
      var cutoff := now - windowMs;
      var timestamps := InWindow(Stored(hits, key), cutoff);
      if |timestamps| >= max {
        return TooMany;
      }
      ghost var before := hits;
      hits := hits[key := timestamps + [now]];
      InWindowAppend(timestamps, now, cutoff);
      InWindowTwice(Stored(before, key), cutoff, cutoff);
      response := Next;
    }

    /** The periodic sweep at clock `now`: each key is filtered, and dropped when nothing is left. */
    method Cleanup(now: int)
      modifies this
      ensures hits == Cleaned(old(hits), now - windowMs)
    {
      var cutoff := now - windowMs;
      var todo := hits.Keys;
      while todo != {}
        invariant SweptExcept(old(hits), hits, todo, cutoff)
        decreases |todo|
      {
        var k :| k in todo;
        var valid := InWindow(hits[k], cutoff);
        SweepStep(old(hits), hits, todo, cutoff, k);
        if valid == [] {
          hits := hits - {k};
        } else {
          hits := hits[k := valid];
        }
        todo := todo - {k};
      }
      SweepDone(old(hits), hits, cutoff);
    }
  }

  /** `createRateLimiter(60_000, 100)`: the limiter mounted on `/api/trpc`, with no client seen yet. */
  method ApiLimiter() returns (l: RateLimiter)
    ensures fresh(l) && l.windowMs == ApiWindowMs && l.max == ApiMax && l.hits == map[]
  {
    l := new RateLimiter(ApiWindowMs, ApiMax);
  }

  /**
   * `findAvailablePort`: the first of the twenty ports from `startPort` on
   * that `isAvailable` accepts, probed in ascending order.
   */
  method FindAvailablePort(startPort: int, isAvailable: int -> bool) returns (r: Result<int>)
    ensures r.Ok? ==> startPort <= r.value < startPort + 20 && isAvailable(r.value)
    ensures r.Ok? ==> forall p :: startPort <= p < r.value ==> !isAvailable(p)
    ensures r.Fail? <==> forall p :: startPort <= p < startPort + 20 ==> !isAvailable(p)
    ensures r.Fail? ==> r.failure == Thrown("No available port found starting from " + IntToString(startPort))
  {
    var port := startPort;
    while port < startPort + 20
      invariant startPort <= port <= startPort + 20
      invariant forall p :: startPort <= p < port ==> !isAvailable(p)
    {
      if isAvailable(port) {
        return Ok(port);
      }
      port := port + 1;
    }
    r := Fail(Thrown("No available port found starting from " + IntToString(startPort)));
  }
}
