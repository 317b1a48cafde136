/**
 Activity from the auth sidecar (services/auth-sidecar/main.go) to the idle-shutdown pass
 (backend/app/tasks.py). Times are integer nanoseconds; the sidecar keeps whole seconds.
 */
module IdleShutdown {
  import opened Common

  const SECOND := 1_000_000_000
  const MINUTE := 60 * SECOND

  // ---------------------------------------------------------------------------------------
  // The sidecar
  // ---------------------------------------------------------------------------------------

  /** What parsing a token establishes; absent string claims are empty. */
  datatype Token = Token(signed: bool, expired: bool, otherwiseValid: bool, aud: string, sub: string, clientIp: string)

  datatype Config = Config(serverId: string, authEnabled: bool)

  datatype Verdict = Valid | ExpiredAuthentic | Invalid

  /** validateToken with isAuthenticToken: the signature is checked before any claim. */
  function Check(cfg: Config, t: Token, ip: string): Verdict {
    if !cfg.authEnabled then Valid
    else if !t.signed then Invalid
    else if t.expired then (if t.aud != "" && t.aud == cfg.serverId then ExpiredAuthentic else Invalid)
    else if !t.otherwiseValid || t.aud == "" || t.aud != cfg.serverId || t.sub == "" then Invalid
    else if t.clientIp != "" && t.clientIp != ip then Invalid
    else Valid
  }

  /** One request: its token if any, the client address, the limiter's answer and the time. */
  datatype Request = Request(token: Option<Token>, ip: string, limited: bool, at: int)

  const OK := 200
  const UNAUTHORIZED := 401
  const TOO_MANY := 429

  class Sidecar {
    const cfg: Config
    var lastActivity: int

    constructor (cfg: Config)
      ensures this.cfg == cfg && lastActivity == 0
    {
      this.cfg := cfg;
      lastActivity := 0;
    }

    /** AuthRequestHandler; ValidateHandler takes the same branches. */
    method Handle(r: Request) returns (status: int)
      modifies this
      ensures status == OK <==> LetThrough(cfg, r)
      ensures status == TOO_MANY <==> r.limited
      ensures status in {OK, UNAUTHORIZED, TOO_MANY}
      ensures lastActivity == Noted(cfg, old(lastActivity), r)
    {
      if r.limited {
        return TOO_MANY;
      }
      if r.token.None? {
        if cfg.authEnabled {
          return UNAUTHORIZED;
        }
        lastActivity := r.at / SECOND;
        return OK;
      }
      var verdict := Check(cfg, r.token.value, r.ip);
      if verdict != Valid {
        if verdict == ExpiredAuthentic {
          lastActivity := r.at / SECOND;
        }
        return UNAUTHORIZED;
      }
      lastActivity := r.at / SECOND;
      status := OK;
    }
  }

  /** Who gets in: nobody over the limit; with authentication on, only a current token for this server. */
  predicate LetThrough(cfg: Config, r: Request) {
    && !r.limited
    && (cfg.authEnabled ==>
          && r.token.Some? && r.token.value.signed && !r.token.value.expired && r.token.value.otherwiseValid
          && r.token.value.aud == cfg.serverId != "" && r.token.value.sub != ""
          && r.token.value.clientIp in {"", r.ip})
  }

  /** An expired token that was really issued for this server. */
  predicate StaleSession(cfg: Config, r: Request) {
    && !r.limited && cfg.authEnabled && r.token.Some?
    && r.token.value.signed && r.token.value.expired && r.token.value.aud == cfg.serverId != ""
  }

  predicate Counts(cfg: Config, r: Request) {
    LetThrough(cfg, r) || StaleSession(cfg, r)
  }

  function Noted(cfg: Config, last: int, r: Request): int {
    if Counts(cfg, r) then r.at / SECOND else last
  }

  /** Section 4.1.4 of RFC 7519: an expired token is never accepted, yet it can count as activity. */
  lemma ExpiredCountsButFails(cfg: Config, r: Request)
    requires cfg.authEnabled && r.token.Some? && r.token.value.expired
    ensures !LetThrough(cfg, r)
    ensures Counts(cfg, r) <==> StaleSession(cfg, r)
  {
  }

  function Recorded(cfg: Config, last: int, rs: seq<Request>): int {
    if rs == [] then last else Noted(cfg, Recorded(cfg, last, rs[..|rs| - 1]), rs[|rs| - 1])
  }

  predicate InOrder(rs: seq<Request>) {
    forall i, j | 0 <= i < j < |rs| :: rs[i].at <= rs[j].at
  }

  /** The record is the truncated time of the latest request that counts. */
  lemma {:induction false} RecordedIsLatest(cfg: Config, last: int, rs: seq<Request>, k: nat)
    requires InOrder(rs) && k < |rs| && Counts(cfg, rs[k])
    ensures rs[k].at / SECOND <= Recorded(cfg, last, rs) <= rs[|rs| - 1].at / SECOND
    decreases |rs|
  {
    var n := |rs| - 1;
    if !Counts(cfg, rs[n]) {
      RecordedIsLatest(cfg, last, rs[..n], k);
      assert rs[..n][|rs[..n]| - 1] == rs[n - 1];
    }
  }

  // ---------------------------------------------------------------------------------------
  // The pass
  // ---------------------------------------------------------------------------------------

  type Sid = nat

  datatype Server = Server(running: bool, container: Option<nat>, lastActivity: Option<int>, startedAt: Option<int>, idleEnabled: bool, timeout: int)

  datatype Report = IsRunning | IsStopped | IsUnknown

  /** Sidecar answers in whole seconds (an unreachable one has none) and runtime answers. */
  datatype World = World(answers: map<Sid, int>, report: Sid -> Report, deletes: Sid -> bool)

  /** Only servers with a container are asked, and zero means the sidecar has seen nothing. */
  function Probe(w: World, sid: Sid, x: Server): Option<int> {
    if x.container.Some? && sid in w.answers && w.answers[sid] > 0 then Some(w.answers[sid] * SECOND) else None
  }

  /** `last or started`: what a pass without a sidecar answer goes by. */
  function Known(x: Server): Option<int> {
    if x.lastActivity.Some? then x.lastActivity else x.startedAt
  }

  function Newest(a: Option<int>, b: Option<int>): Option<int> {
    if a.None? then b else if b.None? then a else Some(Max(a.value, b.value))
  }

  predicate Idle(w: World, sid: Sid, x: Server, now: int) {
    var latest := Newest(Known(x), Probe(w, sid, x));
    x.idleEnabled && latest.Some? && latest.value < now - x.timeout * MINUTE
  }

  /** The stop is confirmed: no container, observed stopped, or deleted. */
  predicate Confirmed(w: World, sid: Sid, x: Server) {
    x.container.Some? ==> w.report(sid) == IsStopped || (w.report(sid) == IsRunning && w.deletes(sid))
  }

  function Turn(w: World, sid: Sid, x: Server, now: int): Server {
    var noted := if x.idleEnabled then x.(lastActivity := Newest(x.lastActivity, Probe(w, sid, x))) else x;
    if Idle(w, sid, x, now) && Confirmed(w, sid, x) then noted.(running := false, container := None) else noted
  }

  class Watchdog {
    var servers: map<Sid, Server>

    method Visit(w: World, sid: Sid, now: int) returns (stopped: bool)
      requires sid in servers
      modifies this
      ensures servers == old(servers)[sid := Turn(w, sid, old(servers)[sid], now)]
      ensures stopped == (Idle(w, sid, old(servers)[sid], now) && Confirmed(w, sid, old(servers)[sid]))
    {
      var x := servers[sid];
      if !x.idleEnabled {
        assert servers == servers[sid := x];
        return false;
      }
      var cutoff := now - x.timeout * MINUTE;
      var last := Known(x);
      var seen := Probe(w, sid, x);
      if seen.Some? && (last.None? || seen.value > last.value) {
        last := seen;
      }
      if seen.Some? && (x.lastActivity.None? || seen.value > x.lastActivity.value) {
        x := x.(lastActivity := seen);
      }
      servers := servers[sid := x];
      if last.None? || last.value >= cutoff {
        return false;
      }
      if x.container.Some? {
        if w.report(sid) == IsUnknown {
          return false;
        }
        if w.report(sid) == IsRunning && !w.deletes(sid) {
          return false;
        }
      }
      servers := servers[sid := x.(running := false, container := None)];
      stopped := true;
    }

    /** The whole pass; the clock is read anew for every server. */
    method Enforce(w: World, sids: seq<Sid>, clock: seq<int>)
      requires |clock| == |sids| && (forall sid | sid in sids :: sid in servers)
      requires forall i, j | 0 <= i < j < |sids| :: sids[i] != sids[j]
      modifies this
      ensures servers.Keys == old(servers).Keys
      ensures forall i | 0 <= i < |sids| :: servers[sids[i]] == Turn(w, sids[i], old(servers)[sids[i]], clock[i])
      ensures forall sid | sid in servers && sid !in sids :: servers[sid] == old(servers)[sid]
    {
      for i := 0 to |sids|
        invariant servers.Keys == old(servers).Keys
        invariant forall k | 0 <= k < i :: servers[sids[k]] == Turn(w, sids[k], old(servers)[sids[k]], clock[k])
        invariant forall sid | sid in servers && sid !in sids[..i] :: servers[sid] == old(servers)[sid]
      {
        assert sids[i] !in sids[..i];
        var _ := Visit(w, sids[i], clock[i]);
        assert sids[..i + 1] == sids[..i] + [sids[i]];
      }
    }
  }

  // ---------------------------------------------------------------------------------------
  // End to end
  // ---------------------------------------------------------------------------------------

  /** Traffic at least a second newer than the cutoff, seen by the poll, keeps the server running. */
  lemma TrafficKeepsServer(cfg: Config, rs: seq<Request>, k: nat, w: World, sid: Sid, x: Server, now: int)
    requires InOrder(rs) && k < |rs| && Counts(cfg, rs[k]) && rs[k].at >= SECOND
    requires x.container.Some? && sid in w.answers && w.answers[sid] == Recorded(cfg, 0, rs)
    requires rs[k].at >= now - x.timeout * MINUTE + SECOND
    ensures Turn(w, sid, x, now).running == x.running && Turn(w, sid, x, now).container == x.container
    ensures x.idleEnabled ==> Turn(w, sid, x, now).lastActivity.Some? && rs[k].at - SECOND < Turn(w, sid, x, now).lastActivity.value
  {
    RecordedIsLatest(cfg, 0, rs, k);
    assert rs[k].at / SECOND >= 1;
  }

  /**
   The second is needed: whatever request counts last, if its time has a fraction of a second, a
   pass that puts the cutoff exactly there stops a server without newer signals.
   */
  lemma TruncationStops(cfg: Config, rs: seq<Request>, w: World, sid: Sid, x: Server)
    requires rs != [] && Counts(cfg, rs[|rs| - 1]) && rs[|rs| - 1].at % SECOND != 0
    requires sid in w.answers && w.answers[sid] == Recorded(cfg, 0, rs)
    requires x.idleEnabled && x.running && x.container.Some? && Confirmed(w, sid, x)
    requires Known(x).Some? && Known(x).value < rs[|rs| - 1].at
    ensures var now := rs[|rs| - 1].at + x.timeout * MINUTE;
      rs[|rs| - 1].at >= now - x.timeout * MINUTE && !Turn(w, sid, x, now).running
  {
    var at := rs[|rs| - 1].at;
    assert Recorded(cfg, 0, rs) == at / SECOND;
    assert at / SECOND * SECOND < at;
  }

  /** The newest signal of a server: stored activity, or else the start; or what its sidecar answered. */
  predicate Signal(w: World, sid: Sid, x: Server, at: int) {
    || x.lastActivity == Some(at)
    || (x.lastActivity.None? && x.startedAt == Some(at))
    || (x.container.Some? && sid in w.answers && w.answers[sid] > 0 && at == w.answers[sid] * 1_000_000_000)
  }

  /**
   A running server is stopped exactly when its owner has idle shutdown on, it has a signal, every
   signal is older than the timeout, and the stop is confirmed: no container, one seen stopped, or one
   seen running and deleted. In particular an unknown status or a failed delete leaves it alone.
   */
  lemma StoppedIff(w: World, sid: Sid, x: Server, now: int)
    requires x.running
    ensures !Turn(w, sid, x, now).running <==>
      && x.idleEnabled
      && (exists at :: Signal(w, sid, x, at))
      && (forall at | Signal(w, sid, x, at) :: at < now - x.timeout * 60_000_000_000)
      && (x.container.None? || w.report(sid) == IsStopped || (w.report(sid) == IsRunning && w.deletes(sid)))
    ensures Turn(w, sid, x, now).running ==> Turn(w, sid, x, now).container == x.container
    ensures !Turn(w, sid, x, now).running ==> Turn(w, sid, x, now).container.None?
  {
    var latest := Newest(Known(x), Probe(w, sid, x));
    if latest.Some? {
      assert Signal(w, sid, x, latest.value);
    }
    if at :| Signal(w, sid, x, at) {
      assert latest.Some? && at <= latest.value;
    }
  }

  /** A turn never moves the stored time back. */
  lemma StoredNeverGoesBack(w: World, sid: Sid, x: Server, now: int)
    ensures x.lastActivity.Some? ==> Turn(w, sid, x, now).lastActivity.Some? && x.lastActivity.value <= Turn(w, sid, x, now).lastActivity.value
  {
  }

  /**
   What the next pass goes by can go back: a server without stored activity whose sidecar reports
   a time before its start loses the start time as fallback. Exactly then.
   */
  lemma FallbackLostIff(w: World, sid: Sid, x: Server, now: int)
    ensures (Known(x).Some? && (Known(Turn(w, sid, x, now)).None? || Known(Turn(w, sid, x, now)).value < Known(x).value)) <==>
      (x.idleEnabled && x.lastActivity.None? && x.startedAt.Some? && Probe(w, sid, x).Some? && Probe(w, sid, x).value < x.startedAt.value)
  {
  }

  /** A row with a start time and no stored activity, whose sidecar truncates a request just after the start. */
  lemma FallbackLost(start: int)
    requires start >= SECOND && start % SECOND != 0
    ensures var x := Server(true, Some(0), None, Some(start), true, 15);
      var w := World(map[0 := start / SECOND], _ => IsRunning, _ => true);
      Known(x) == Some(start) && Known(Turn(w, 0, x, start)).Some? && Known(Turn(w, 0, x, start)).value < start
  {
    assert start / SECOND >= 1 && start / SECOND * SECOND < start;
  }
}
