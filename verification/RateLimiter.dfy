/**
 The auth sidecar's per-address limiter (services/auth-sidecar/main.go, RateLimiter.Allow).
 The clock is read up to three times in one call, in order; the mutex makes calls sequential.
 */
module RateLimiter {
  import opened Common

  datatype Bucket = Bucket(tokens: int, lastReset: int)

  /** One call: when the bucket is looked up, when its age is checked, when it is reset or spent. */
  datatype Request = Request(ip: string, found: int, checked: int, settled: int)

  datatype Config = Config(requests: int, window: int)

  function Refilled(cfg: Config, b: Option<Bucket>, r: Request): Bucket {
    var known := if b.Some? then b.value else Bucket(cfg.requests, r.found);
    if r.checked - known.lastReset > cfg.window then Bucket(cfg.requests, r.settled) else known
  }

  predicate Granted(cfg: Config, b: Option<Bucket>, r: Request) {
    Refilled(cfg, b, r).tokens > 0
  }

  function Spent(cfg: Config, b: Option<Bucket>, r: Request): Bucket {
    var full := Refilled(cfg, b, r);
    if full.tokens > 0 then full.(tokens := full.tokens - 1) else full
  }

  function Lookup(buckets: map<string, Bucket>, ip: string): Option<Bucket> {
    if ip in buckets then Some(buckets[ip]) else None
  }

  class Limiter {
    const cfg: Config
    var buckets: map<string, Bucket>

    constructor (requests: int, window: int)
      ensures cfg == Config(requests, window) && buckets == map[]
    {
      cfg := Config(requests, window);
      buckets := map[];
    }

    method Allow(r: Request) returns (ok: bool)
      modifies this
      ensures ok == Granted(cfg, Lookup(old(buckets), r.ip), r)
      ensures buckets == old(buckets)[r.ip := Spent(cfg, Lookup(old(buckets), r.ip), r)]
      ensures var known := r.ip in old(buckets);
        var due := r.checked - (if known then old(buckets)[r.ip].lastReset else r.found) > cfg.window;
        var tokens := if known && !due then old(buckets)[r.ip].tokens else cfg.requests;
        && (ok <==> tokens > 0) && r.ip in buckets && buckets[r.ip].tokens == tokens - (if ok then 1 else 0)
        && buckets[r.ip].lastReset == if due then r.settled else if known then old(buckets)[r.ip].lastReset else r.found
    {
      if r.ip !in buckets {
        buckets := buckets[r.ip := Bucket(cfg.requests, r.found)];
      }
      if r.checked - buckets[r.ip].lastReset > cfg.window {
        buckets := buckets[r.ip := Bucket(cfg.requests, r.settled)];
      }
      var b := buckets[r.ip];
      if b.tokens <= 0 {
        return false;
      }
      buckets := buckets[r.ip := b.(tokens := b.tokens - 1)];
      return true;
    }
  }

  // ---------------------------------------------------------------------------------------
  // Whole traces
  // ---------------------------------------------------------------------------------------

  predicate Ordered(trace: seq<Request>) {
    && (forall i | 0 <= i < |trace| :: trace[i].found <= trace[i].checked <= trace[i].settled)
    && (forall i, j | 0 <= i < j < |trace| :: trace[i].settled <= trace[j].found)
  }

  /** How many of the requests of one address get through. */
  function Allowed(cfg: Config, buckets: map<string, Bucket>, trace: seq<Request>, ip: string): nat
    decreases |trace|
  {
    if trace == [] then 0
    else
      var r, b := trace[0], Lookup(buckets, trace[0].ip);
      (if r.ip == ip && Granted(cfg, b, r) then 1 else 0) + Allowed(cfg, buckets[r.ip := Spent(cfg, b, r)], trace[1..], ip)
  }

  function Only(trace: seq<Request>, ip: string): seq<Request>
    decreases |trace|
  {
    if trace == [] then []
    else (if trace[0].ip == ip then [trace[0]] else []) + Only(trace[1..], ip)
  }

  /** The same count for an address on its own, from its own bucket. */
  function AllowedAlone(cfg: Config, b: Option<Bucket>, trace: seq<Request>): nat
    decreases |trace|
  {
    if trace == [] then 0
    else (if Granted(cfg, b, trace[0]) then 1 else 0) + AllowedAlone(cfg, Some(Spent(cfg, b, trace[0])), trace[1..])
  }

  /** Other addresses make no difference: a mixed trace grants an address what its own requests would get. */
  lemma {:induction false} TrafficIsIndependent(cfg: Config, buckets: map<string, Bucket>, trace: seq<Request>, ip: string)
    ensures Allowed(cfg, buckets, trace, ip) == AllowedAlone(cfg, Lookup(buckets, ip), Only(trace, ip))
    decreases |trace|
  {
    if trace != [] {
      var r, b := trace[0], Lookup(buckets, trace[0].ip);
      var next := buckets[r.ip := Spent(cfg, b, r)];
      TrafficIsIndependent(cfg, next, trace[1..], ip);
      if r.ip == ip {
        assert Only(trace, ip)[1..] == Only(trace[1..], ip);
        assert Lookup(next, ip) == Some(Spent(cfg, b, r));
      } else {
        assert Only(trace, ip) == Only(trace[1..], ip);
        assert Lookup(next, ip) == Lookup(buckets, ip);
      }
    }
  }

  lemma {:induction false} OnlyFrom(trace: seq<Request>, ip: string)
    ensures forall r | r in Only(trace, ip) :: r in trace
    decreases |trace|
  {
    if trace != [] {
      OnlyFrom(trace[1..], ip);
      assert forall r | r in trace[1..] :: r in trace;
    }
  }

  lemma {:induction false} OnlyOrdered(trace: seq<Request>, ip: string)
    requires Ordered(trace)
    ensures Ordered(Only(trace, ip))
    decreases |trace|
  {
    if trace != [] {
      var tail := trace[1..];
      assert forall i | 0 <= i < |tail| :: tail[i] == trace[i + 1];
      OnlyOrdered(tail, ip);
      OnlyFrom(tail, ip);
      assert forall r | r in tail :: trace[0].settled <= r.found;
    }
  }

  /** No check of the trace finds the bucket older than the window. */
  predicate NoReset(cfg: Config, lastReset: int, trace: seq<Request>) {
    forall i | 0 <= i < |trace| :: trace[i].checked - lastReset <= cfg.window
  }

  /** Between resets a bucket grants at most its tokens. */
  lemma {:induction false} BetweenResets(cfg: Config, b: Bucket, trace: seq<Request>)
    requires NoReset(cfg, b.lastReset, trace)
    ensures AllowedAlone(cfg, Some(b), trace) <= Max(0, b.tokens)
    decreases |trace|
  {
    if trace != [] {
      assert NoReset(cfg, b.lastReset, trace[1..]);
      BetweenResets(cfg, Spent(cfg, Some(b), trace[0]), trace[1..]);
    }
  }

  predicate Within(trace: seq<Request>, from: int, to: int) {
    forall i | 0 <= i < |trace| :: from <= trace[i].found && trace[i].settled <= to
  }

  /** A stretch no longer than the window sees at most one reset. */
  lemma {:induction false} OneResetAtMost(cfg: Config, b: Bucket, trace: seq<Request>, from: int)
    requires Ordered(trace) && Within(trace, from, from + cfg.window)
    ensures AllowedAlone(cfg, Some(b), trace) <= Max(0, b.tokens) + Max(0, cfg.requests)
    decreases |trace|
  {
    if trace != [] {
      var r := trace[0];
      var b' := Spent(cfg, Some(b), r);
      assert Ordered(trace[1..]) && Within(trace[1..], from, from + cfg.window);
      if r.checked - b.lastReset > cfg.window {
        assert NoReset(cfg, r.settled, trace[1..]);
        BetweenResets(cfg, b', trace[1..]);
      } else {
        OneResetAtMost(cfg, b', trace[1..], from);
      }
    }
  }

  /** A bucket at rest has been spent from since it was last full. */
  predicate Sane(cfg: Config, b: Option<Bucket>) {
    b.Some? ==> b.value.tokens <= Max(0, cfg.requests - 1)
  }

  /** What one address can get in a window: a full bucket and the rest of the one before it. */
  function Ceiling(cfg: Config): nat {
    Max(0, 2 * cfg.requests - 1)
  }

  /** Over any span no longer than the window, one address gets at most one less than twice the limit. */
  lemma UnderTwiceTheLimit(cfg: Config, buckets: map<string, Bucket>, trace: seq<Request>, ip: string)
    requires Ordered(trace) && Sane(cfg, Lookup(buckets, ip))
    requires trace != [] ==> trace[|trace| - 1].settled - trace[0].found <= cfg.window
    ensures Allowed(cfg, buckets, trace, ip) <= Ceiling(cfg)
  {
    TrafficIsIndependent(cfg, buckets, trace, ip);
    var own := Only(trace, ip);
    if own != [] {
      assert trace != [];
      OnlyOrdered(trace, ip);
      OwnWithin(cfg, trace, ip);
      if ip in buckets {
        OneResetAtMost(cfg, buckets[ip], own, trace[0].found);
      } else {
        FirstBucket(cfg, own, trace[0].found);
      }
    }
  }

  lemma OwnWithin(cfg: Config, trace: seq<Request>, ip: string)
    requires Ordered(trace) && trace != [] && trace[|trace| - 1].settled - trace[0].found <= cfg.window
    ensures Within(Only(trace, ip), trace[0].found, trace[0].found + cfg.window)
  {
    var own, from := Only(trace, ip), trace[0].found;
    OnlyFrom(trace, ip);
    assert forall r | r in trace :: from <= r.found && r.settled <= from + cfg.window;
    assert forall i | 0 <= i < |own| :: own[i] in trace;
  }

  /** An address never seen before starts with a full bucket, which outlasts the span. */
  lemma FirstBucket(cfg: Config, own: seq<Request>, from: int)
    requires own != [] && Ordered(own) && Within(own, from, from + cfg.window)
    ensures AllowedAlone(cfg, None, own) <= Max(0, cfg.requests)
  {
    var full := Bucket(cfg.requests, own[0].found);
    assert AllowedAlone(cfg, None, own) == AllowedAlone(cfg, Some(full), own);
    assert NoReset(cfg, full.lastReset, own);
    BetweenResets(cfg, full, own);
  }

  /** Buckets stay spent from, so the bound holds for every stretch of a longer trace. */
  lemma SaneStep(cfg: Config, buckets: map<string, Bucket>, r: Request, ip: string)
    requires Sane(cfg, Lookup(buckets, ip))
    ensures Sane(cfg, Lookup(buckets[r.ip := Spent(cfg, Lookup(buckets, r.ip), r)], ip))
  {
  }

  function After(cfg: Config, buckets: map<string, Bucket>, trace: seq<Request>): map<string, Bucket>
    decreases |trace|
  {
    if trace == [] then buckets
    else After(cfg, buckets[trace[0].ip := Spent(cfg, Lookup(buckets, trace[0].ip), trace[0])], trace[1..])
  }

  lemma {:induction false} SaneAlong(cfg: Config, buckets: map<string, Bucket>, trace: seq<Request>, ip: string)
    requires Sane(cfg, Lookup(buckets, ip))
    ensures Sane(cfg, Lookup(After(cfg, buckets, trace), ip))
    decreases |trace|
  {
    if trace != [] {
      SaneStep(cfg, buckets, trace[0], ip);
      SaneAlong(cfg, buckets[trace[0].ip := Spent(cfg, Lookup(buckets, trace[0].ip), trace[0])], trace[1..], ip);
    }
  }

  /** For every stretch of every trace a new limiter can see. */
  lemma LimitOnEveryStretch(cfg: Config, past: seq<Request>, stretch: seq<Request>, ip: string)
    requires Ordered(past + stretch)
    requires stretch != [] ==> stretch[|stretch| - 1].settled - stretch[0].found <= cfg.window
    ensures Allowed(cfg, After(cfg, map[], past), stretch, ip) <= Ceiling(cfg)
  {
    SaneAlong(cfg, map[], past, ip);
    forall i, j | 0 <= i < j < |stretch| ensures stretch[i].settled <= stretch[j].found {
      assert (past + stretch)[|past| + i] == stretch[i] && (past + stretch)[|past| + j] == stretch[j];
    }
    forall i | 0 <= i < |stretch| ensures stretch[i].found <= stretch[i].checked <= stretch[i].settled {
      assert (past + stretch)[|past| + i] == stretch[i];
    }
    UnderTwiceTheLimit(cfg, After(cfg, map[], past), stretch, ip);
  }

  // ---------------------------------------------------------------------------------------
  // The bound is reached
  // ---------------------------------------------------------------------------------------

  /** `n` requests of one address, all at one instant. */
  function Burst(n: nat, at: int): seq<Request> {
    seq(n, _ => Request("a", at, at, at))
  }

  /** A burst the bucket can pay for, before its reset is due, is granted in full. */
  lemma {:induction false} BurstGranted(cfg: Config, b: Bucket, n: nat, at: int, rest: seq<Request>)
    requires n <= b.tokens && at - b.lastReset <= cfg.window
    ensures AllowedAlone(cfg, Some(b), Burst(n, at) + rest) == n + AllowedAlone(cfg, Some(b.(tokens := b.tokens - n)), rest)
    decreases n
  {
    if n == 0 {
      assert Burst(n, at) + rest == rest;
    } else {
      assert (Burst(n, at) + rest)[1..] == Burst(n - 1, at) + rest;
      BurstGranted(cfg, b.(tokens := b.tokens - 1), n - 1, at, rest);
    }
  }

  /** A burst that finds the bucket overdue resets it first. */
  lemma ResetGranted(cfg: Config, b: Bucket, at: int)
    requires cfg.requests >= 1 && cfg.window >= 0 && at - b.lastReset > cfg.window
    ensures AllowedAlone(cfg, Some(b), Burst(cfg.requests, at)) == cfg.requests
  {
    var all := Burst(cfg.requests, at);
    assert all[1..] == Burst(cfg.requests - 1, at) + [];
    BurstGranted(cfg, Bucket(cfg.requests - 1, at), cfg.requests - 1, at, []);
  }

  /** All of it is a trace: one request, then two bursts an instant apart around the reset. */
  lemma BurstsOrdered(m: nat, n: nat, at: int)
    requires at >= 0
    ensures Ordered([Request("a", 0, 0, 0)] + (Burst(m, at) + Burst(n, at + 1)))
  {
    var trace := [Request("a", 0, 0, 0)] + (Burst(m, at) + Burst(n, at + 1));
    assert forall i | 0 <= i < |trace| :: trace[i].found == trace[i].settled == (if i == 0 then 0 else if i <= m then at else at + 1);
  }

  lemma {:induction false} AllOwn(trace: seq<Request>)
    requires forall i | 0 <= i < |trace| :: trace[i].ip == "a"
    ensures Only(trace, "a") == trace
    decreases |trace|
  {
    if trace != [] {
      AllOwn(trace[1..]);
    }
  }

  /** For every limit there is a past and a stretch within the window in which a new limiter grants the ceiling. */
  lemma CeilingIsReached(cfg: Config)
    requires cfg.requests >= 1 && cfg.window >= 1
    ensures var past, stretch := [Request("a", 0, 0, 0)], Burst(cfg.requests - 1, cfg.window) + Burst(cfg.requests, cfg.window + 1);
      && Ordered(past + stretch)
      && stretch[|stretch| - 1].settled - stretch[0].found <= cfg.window
      && Allowed(cfg, After(cfg, map[], past), stretch, "a") == Ceiling(cfg)
  {
    var stretch := Burst(cfg.requests - 1, cfg.window) + Burst(cfg.requests, cfg.window + 1);
    BurstsOrdered(cfg.requests - 1, cfg.requests, cfg.window);
    FirstRequest(cfg);
    var buckets := map["a" := Bucket(cfg.requests - 1, 0)];
    assert Allowed(cfg, buckets, stretch, "a") == Ceiling(cfg) by {
      TrafficIsIndependent(cfg, buckets, stretch, "a");
      AllOwn(stretch);
      TwoBursts(cfg);
    }
  }

  lemma FirstRequest(cfg: Config)
    requires cfg.requests >= 1 && cfg.window >= 1
    ensures After(cfg, map[], [Request("a", 0, 0, 0)]) == map["a" := Bucket(cfg.requests - 1, 0)]
  {
    assert [Request("a", 0, 0, 0)][1..] == [];
  }

  lemma TwoBursts(cfg: Config)
    requires cfg.requests >= 1 && cfg.window >= 1
    ensures AllowedAlone(cfg, Some(Bucket(cfg.requests - 1, 0)), Burst(cfg.requests - 1, cfg.window) + Burst(cfg.requests, cfg.window + 1)) == Ceiling(cfg)
  {
    var b := Bucket(cfg.requests - 1, 0);
    BurstGranted(cfg, b, cfg.requests - 1, cfg.window, Burst(cfg.requests, cfg.window + 1));
    ResetGranted(cfg, b.(tokens := 0), cfg.window + 1);
  }
}
