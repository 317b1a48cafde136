/** What every run of logins, rotations, revocations and purges keeps (backend/app/api/auth.py). */
module RefreshTokenTheorems {
  import opened Common
  import opened RefreshTokens

  // ---------------------------------------------------------------------------------------
  // Index and scan
  // ---------------------------------------------------------------------------------------

  /**
   Lookup plus fallback accepts what a scan of all live rows accepts, and the same row. The clock
   moves between the two queries: the answer lies between the scans at the two readings.
   */
  lemma LookupRefinesScan(t: Table, plaintext: string, now: int, later: int, a: Answer)
    requires WellFormed(t) && now <= later && Answers(t, plaintext, now, later, a)
    ensures a.MultipleRows? == false
    ensures a.Accepted? ==> Scan(t, plaintext, now) == {a.id}
    ensures Scan(t, plaintext, later) != {} ==> a.Accepted?
    ensures now == later ==> (a.Accepted? <==> Scan(t, plaintext, now) != {})
  {
    AtMostOne(t, ByLookup(t, plaintext, now), plaintext);
    if a.Accepted? {
      assert Scan(t, plaintext, now) == {a.id};
    }
    if id :| id in Scan(t, plaintext, later) {
      assert id in ByLookup(t, plaintext, now) + Legacy(t, later);
      assert id in Candidates(t, plaintext, now, later);
    }
  }

  lemma AtMostOne(t: Table, ids: set<Id>, secret: string)
    requires WellFormed(t) && forall id | id in ids :: id in t && t[id].hash.secret == secret
    ensures |ids| <= 1
  {
    if id :| id in ids {
      assert ids == {id};
    }
  }

  // ---------------------------------------------------------------------------------------
  // The cap
  // ---------------------------------------------------------------------------------------

  lemma ActiveAfterRevoke(t: Table, ids: set<Id>, now: int, user: User)
    ensures Active(Revoke(t, ids, now), user) == Active(t, user) - ids
  {
  }

  lemma ActiveAfterIssue(t: Table, user: User, g: Grant, u: User)
    requires g.id !in t && g.evicted <= Active(t, user)
    ensures Active(Issue(t, user, g), u) == if u == user then Active(t, u) - g.evicted + {g.id} else Active(t, u)
  {
    var between := Revoke(t, g.evicted, g.now);
    ActiveAfterRevoke(t, g.evicted, g.now, u);
    assert forall id | id in between :: id in Issue(t, user, g) && Issue(t, user, g)[id] == between[id];
  }

  /** One more session, at most ten in all, and only the user's own oldest sessions gave way. */
  lemma CapAfterIssue(t: Table, user: User, g: Grant)
    requires g.id !in t && Oldest(t, user, g.evicted)
    ensures Active(Issue(t, user, g), user) == Active(t, user) - g.evicted + {g.id}
    ensures |Active(Issue(t, user, g), user)| == Min(|Active(t, user)| + 1, 10)
    ensures forall u | u != user :: Active(Issue(t, user, g), u) == Active(t, u)
  {
    var kept := Active(t, user) - g.evicted;
    ActiveAfterIssue(t, user, g, user);
    assert |kept| == |Active(t, user)| - |g.evicted|;
    assert |kept + {g.id}| == |kept| + 1;
    forall u | u != user ensures Active(Issue(t, user, g), u) == Active(t, u) {
      ActiveAfterIssue(t, user, g, u);
    }
  }

  /** A session that lost its place is at least as old as every session that kept one. */
  lemma OldestGiveWay(t: Table, user: User, g: Grant, lost: Id, kept: Id)
    requires g.id !in t && Oldest(t, user, g.evicted)
    requires lost in Active(t, user) && lost !in Active(Issue(t, user, g), user)
    requires kept in Active(t, user) && kept in Active(Issue(t, user, g), user)
    ensures t[lost].created <= t[kept].created
  {
    ActiveAfterIssue(t, user, g, user);
  }

  /** Two choices of the oldest sessions differ only where creation times tie. */
  lemma ChoicesDifferByTies(t: Table, user: User, a: set<Id>, b: set<Id>)
    requires Oldest(t, user, a) && Oldest(t, user, b) && a != b
    ensures exists x, y :: x in Active(t, user) && y in Active(t, user) && x != y && t[x].created == t[y].created
  {
    assert |a| == |a * b| + |a - b| by { assert a == (a * b) + (a - b); }
    assert |b| == |a * b| + |b - a| by { assert b == (a * b) + (b - a); }
    assert a - b != {} && b - a != {};
    var x :| x in a - b;
    var y :| y in b - a;
    assert x in Active(t, user) && y in Active(t, user) && t[x].created == t[y].created;
  }

  ghost predicate NoTies(t: Table, user: User) {
    forall i, j | i in Active(t, user) && j in Active(t, user) && t[i].created == t[j].created :: i == j
  }

  lemma EvictedOnce(t: Table, user: User, g: Grant)
    ensures Issue(Revoke(t, g.evicted, g.now), user, g.(evicted := {})) == Issue(t, user, g)
  {
    assert Revoke(Revoke(t, g.evicted, g.now), {}, g.now) == Revoke(t, g.evicted, g.now);
  }

  /**
   The cap is kept because creations do not overlap: two that both chose whom to evict before
   either was written keep it exactly when the user had at most eight sessions.
   */
  lemma OverlapKeepsCapIff(t: Table, user: User, g: Grant, h: Grant)
    requires g.id !in t && h.id !in t && g.id != h.id && Oldest(t, user, g.evicted) && Oldest(t, user, h.evicted)
    requires NoTies(t, user)
    ensures |Active(Issue(Issue(t, user, g), user, h), user)| <= MAX_PER_USER <==> |Active(t, user)| <= 8
  {
    if g.evicted != h.evicted {
      ChoicesDifferByTies(t, user, g.evicted, h.evicted);
    }
    var once, kept := Issue(t, user, g), Active(t, user) - g.evicted;
    var cleared := Revoke(once, h.evicted, h.now);
    ActiveAfterIssue(t, user, g, user);
    ActiveAfterRevoke(once, h.evicted, h.now, user);
    assert Active(cleared, user) == kept + {g.id};
    ActiveAfterIssue(cleared, user, h.(evicted := {}), user);
    EvictedOnce(once, user, h);
    assert |kept| == |Active(t, user)| - |g.evicted|;
    assert |kept + {g.id}| == |kept| + 1;
    assert |kept + {g.id} + {h.id}| == |kept| + 2;
  }

  function Below(n: nat): (ids: set<Id>)
    ensures |ids| == n && forall i | i in ids :: i < n
  {
    if n == 0 then {} else Below(n - 1) + {n - 1}
  }

  /** User 0 with sessions 0 to n - 1, created in that order. */
  function Sessions(n: nat): Table {
    map i: Id | i in Below(n) :: Row(0, Bcrypt("", i), None, i, 0, None)
  }

  lemma SessionsActive(n: nat)
    ensures |Active(Sessions(n), 0)| == n && NoTies(Sessions(n), 0) && n !in Sessions(n) && n + 1 !in Sessions(n)
  {
    assert Active(Sessions(n), 0) == Below(n);
  }

  /** One session short of the cap, two creations that overlap go one above it. */
  lemma OverlapBreaksCap(n: nat)
    requires n == MAX_PER_USER - 1
    ensures var t, g, h := Sessions(n), Grant(n, "g", 0, {}, 0, 0, 0), Grant(n + 1, "h", 0, {}, 0, 0, 0);
      && |Active(t, 0)| == n && Oldest(t, 0, g.evicted) && Oldest(t, 0, h.evicted)
      && |Active(Issue(Issue(t, 0, g), 0, h), 0)| > MAX_PER_USER
  {
    SessionsActive(n);
    OverlapKeepsCapIff(Sessions(n), 0, Grant(n, "g", 0, {}, 0, 0, 0), Grant(n + 1, "h", 0, {}, 0, 0, 0));
  }

  /** Rotating one of at most ten sessions swaps it for the new one and touches no other session. */
  lemma RotationKeepsOthers(t: Table, id: Id, now: int, g: Grant)
    requires id in t && t[id].revoked.None? && |Active(t, t[id].user)| <= MAX_PER_USER
    requires g.id !in t && Oldest(Revoke(t, {id}, now), t[id].user, g.evicted)
    ensures g.evicted == {}
    ensures var after := Issue(Revoke(t, {id}, now), t[id].user, g);
      && Active(after, t[id].user) == Active(t, t[id].user) - {id} + {g.id}
      && |Active(after, t[id].user)| == |Active(t, t[id].user)|
      && forall k | k in t && k != id :: k in after && after[k] == t[k]
  {
    var user, between := t[id].user, Revoke(t, {id}, now);
    ActiveAfterRevoke(t, {id}, now, user);
    assert id in Active(t, user);
    assert |Active(t, user) - {id}| == |Active(t, user)| - 1;
    assert g.evicted == {};
    CapAfterIssue(between, user, g);
  }

  // ---------------------------------------------------------------------------------------
  // Runs
  // ---------------------------------------------------------------------------------------

  datatype Event =
    | Login(user: User, grant: Grant)
    | Rotate(plaintext: string, id: Id, now: int, later: int, next: Option<Grant>)  // no grant when the user is gone or inactive
    | Logout(plaintext: string, id: Id, now: int, later: int)
    | PurgeBatch(gone: set<Id>, cutoff: int, now: int)

  /** The table and every secret issued so far; issued secrets are never drawn again. */
  datatype State = State(table: Table, issued: set<string>)

  predicate Grantable(s: State, t: Table, user: User, g: Grant) {
    g.id !in t && g.secret !in s.issued && Oldest(t, user, g.evicted)
  }

  ghost predicate Enabled(s: State, e: Event) {
    match e
    case Login(user, g) => Grantable(s, s.table, user, g)
    case Rotate(p, id, now, later, next) =>
      && Answers(s.table, p, now, later, Accepted(id))
      && (next.Some? ==> Grantable(s, Revoke(s.table, {id}, now), s.table[id].user, next.value))
    case Logout(p, id, now, later) => Answers(s.table, p, now, later, Accepted(id))
    case PurgeBatch(gone, cutoff, now) => gone <= StaleIds(s.table, cutoff, now)
  }

  function Granted(s: State, t: Table, user: User, g: Grant): State {
    State(Issue(t, user, g), s.issued + {g.secret})
  }

  ghost function Apply(s: State, e: Event): State
    requires Enabled(s, e)
  {
    match e
    case Login(user, g) => Granted(s, s.table, user, g)
    case Rotate(_, id, now, _, next) =>
      var t := Revoke(s.table, {id}, now);
      if next.Some? then Granted(s, t, s.table[id].user, next.value) else s.(table := t)
    case Logout(_, id, now, _) => s.(table := Revoke(s.table, {id}, now))
    case PurgeBatch(gone, _, _) => s.(table := s.table - gone)
  }

  ghost predicate Runs(s: State, events: seq<Event>)
    decreases |events|
  {
    events == [] || (Enabled(s, events[0]) && Runs(Apply(s, events[0]), events[1..]))
  }

  ghost function After(s: State, events: seq<Event>): State
    requires Runs(s, events)
    decreases |events|
  {
    if events == [] then s else After(Apply(s, events[0]), events[1..])
  }

  ghost predicate Capped(t: Table) {
    forall u :: |Active(t, u)| <= MAX_PER_USER
  }

  ghost predicate Inv(s: State) {
    && WellFormed(s.table)
    && Capped(s.table)
    && (forall id | id in s.table :: s.table[id].hash.secret in s.issued)
  }

  lemma RevokeKeepsInv(s: State, ids: set<Id>, now: int)
    requires Inv(s)
    ensures Inv(s.(table := Revoke(s.table, ids, now)))
  {
    forall u ensures |Active(Revoke(s.table, ids, now), u)| <= MAX_PER_USER {
      ActiveAfterRevoke(s.table, ids, now, u);
      Fewer(Active(s.table, u) - ids, Active(s.table, u));
    }
  }

  lemma Fewer(a: set<Id>, b: set<Id>)
    requires a <= b
    ensures |a| <= |b|
  {
    assert b == a + (b - a);
  }

  lemma GrantKeepsInv(s: State, user: User, g: Grant)
    requires Inv(s) && Grantable(s, s.table, user, g)
    ensures Inv(Granted(s, s.table, user, g))
  {
    CapAfterIssue(s.table, user, g);
    WellFormedAfterIssue(s, user, g);
  }

  lemma WellFormedAfterIssue(s: State, user: User, g: Grant)
    requires WellFormed(s.table) && Grantable(s, s.table, user, g)
    requires forall id | id in s.table :: s.table[id].hash.secret in s.issued
    ensures WellFormed(Issue(s.table, user, g))
    ensures forall id | id in Issue(s.table, user, g) :: Issue(s.table, user, g)[id].hash.secret in s.issued + {g.secret}
  {
    var t, after := s.table, Issue(s.table, user, g);
    assert forall id | id in after && id != g.id :: id in t && after[id].hash == t[id].hash && after[id].lookup == t[id].lookup;
  }

  lemma PurgeKeepsInv(s: State, gone: set<Id>)
    requires Inv(s)
    ensures Inv(s.(table := s.table - gone))
  {
    forall u ensures |Active(s.table - gone, u)| <= MAX_PER_USER {
      Fewer(Active(s.table - gone, u), Active(s.table, u));
    }
  }

  lemma InvStep(s: State, e: Event)
    requires Inv(s) && Enabled(s, e)
    ensures Inv(Apply(s, e))
  {
    match e
    case Login(user, g) => GrantKeepsInv(s, user, g);
    case Rotate(_, id, now, _, next) =>
      RevokeKeepsInv(s, {id}, now);
      if next.Some? {
        GrantKeepsInv(s.(table := Revoke(s.table, {id}, now)), s.table[id].user, next.value);
      }
    case Logout(_, id, now, _) => RevokeKeepsInv(s, {id}, now);
    case PurgeBatch(gone, _, _) => PurgeKeepsInv(s, gone);
  }

  /** In every reachable table nobody has more than ten sessions and lookup agrees with the scan. */
  lemma {:induction false} SoundThroughout(s: State, events: seq<Event>, plaintext: string, now: int, a: Answer)
    requires Inv(s) && Runs(s, events) && Answers(After(s, events).table, plaintext, now, now, a)
    ensures Capped(After(s, events).table)
    ensures !a.MultipleRows? && (a.Accepted? <==> Scan(After(s, events).table, plaintext, now) != {})
    ensures a.Accepted? ==> Scan(After(s, events).table, plaintext, now) == {a.id}
    decreases |events|
  {
    if events == [] {
      LookupRefinesScan(s.table, plaintext, now, now, a);
    } else {
      InvStep(s, events[0]);
      SoundThroughout(Apply(s, events[0]), events[1..], plaintext, now, a);
    }
  }

  // ---------------------------------------------------------------------------------------
  // An issued token is accepted
  // ---------------------------------------------------------------------------------------

  /** The events that can end a session: its rotation, its logout, its eviction and its purge. */
  predicate Ends(e: Event, id: Id) {
    match e
    case Login(_, g) => id in g.evicted
    case Rotate(_, rotated, _, _, next) => id == rotated || (next.Some? && id in next.value.evicted)
    case Logout(_, out, _, _) => id == out
    case PurgeBatch(gone, _, _) => id in gone
  }

  ghost predicate Session(s: State, id: Id, user: User, secret: string, expires: int) {
    && id in s.table && s.table[id].user == user && s.table[id].hash.secret == secret
    && s.table[id].expires == expires && s.table[id].revoked.None?
  }

  lemma SessionStep(s: State, e: Event, id: Id, user: User, secret: string, expires: int)
    requires Enabled(s, e) && Session(s, id, user, secret, expires) && !Ends(e, id)
    ensures Session(Apply(s, e), id, user, secret, expires)
  {
    match e
    case Login(u, g) => assert g.id != id;
    case Rotate(_, rotated, now, _, next) =>
      if next.Some? {
        assert next.value.id != id;
      }
    case Logout(_, _, _, _) =>
    case PurgeBatch(_, _, _) =>
  }

  /** A purge whose clock has not passed the expiry leaves an unrevoked session alone. */
  lemma PurgeSparesSessions(s: State, e: Event, id: Id, user: User, secret: string, expires: int)
    requires Enabled(s, e) && e.PurgeBatch? && Session(s, id, user, secret, expires) && e.now <= expires
    ensures !Ends(e, id)
  {
  }

  /** Until one of these ends it, a session is accepted before its expiry, for its user, and not from then on. */
  lemma {:induction false} AcceptedThroughout(s: State, events: seq<Event>, id: Id, user: User, secret: string, expires: int, now: int, later: int, a: Answer)
    requires Inv(s) && Session(s, id, user, secret, expires) && Runs(s, events) && forall i | 0 <= i < |events| :: !Ends(events[i], id)
    requires now <= later && Answers(After(s, events).table, secret, now, later, a)
    ensures later < expires ==> a == Accepted(id) && id in After(s, events).table && After(s, events).table[id].user == user
    ensures now >= expires ==> a == Refused
    decreases |events|
  {
    if events == [] {
      LookupRefinesScan(s.table, secret, now, later, a);
      assert later < expires ==> id in Scan(s.table, secret, later);
      forall k | k in Scan(s.table, secret, now) ensures k == id {
      }
    } else {
      InvStep(s, events[0]);
      SessionStep(s, events[0], id, user, secret, expires);
      AcceptedThroughout(Apply(s, events[0]), events[1..], id, user, secret, expires, now, later, a);
    }
  }

  // ---------------------------------------------------------------------------------------
  // A rotated or ended one never is again
  // ---------------------------------------------------------------------------------------

  ghost predicate Retired(s: State, secret: string) {
    && secret in s.issued
    && forall id | id in s.table && s.table[id].hash.secret == secret :: s.table[id].revoked.Some?
  }

  lemma RotationRetires(s: State, e: Event)
    requires Inv(s) && Enabled(s, e) && e.Rotate?
    ensures Retired(Apply(s, e), e.plaintext)
  {
    var t := Revoke(s.table, {e.id}, e.now);
    assert s.table[e.id].hash.secret == e.plaintext;
    assert Retired(s.(table := t), e.plaintext);
    if e.next.Some? {
      RetiredAfterIssue(s.(table := t), s.table[e.id].user, e.next.value, e.plaintext);
    }
  }

  lemma RetiredAfterIssue(s: State, user: User, g: Grant, secret: string)
    requires Retired(s, secret) && Grantable(s, s.table, user, g)
    ensures Retired(Granted(s, s.table, user, g), secret)
  {
  }

  /** In a well-formed table a secret is retired with its one row. */
  lemma RevokedIsRetired(s: State, id: Id, ids: set<Id>, now: int)
    requires Inv(s) && id in s.table && id in ids
    ensures Retired(s.(table := Revoke(s.table, ids, now)), s.table[id].hash.secret)
  {
  }

  lemma EvictionRetires(s: State, user: User, g: Grant, id: Id)
    requires Inv(s) && Grantable(s, s.table, user, g) && id in g.evicted
    ensures id in s.table && Retired(Granted(s, s.table, user, g), s.table[id].hash.secret)
  {
    RevokedIsRetired(s, id, g.evicted, g.now);
  }

  lemma EndingRetires(s: State, e: Event, id: Id, user: User, secret: string, expires: int)
    requires Inv(s) && Enabled(s, e) && Session(s, id, user, secret, expires) && Ends(e, id)
    ensures Retired(Apply(s, e), secret)
  {
    match e
    case Login(u, g) => EvictionRetires(s, u, g, id);
    case Rotate(_, rotated, now, _, next) =>
      var between := s.(table := Revoke(s.table, {rotated}, now));
      RevokeKeepsInv(s, {rotated}, now);
      if id == rotated {
        RevokedIsRetired(s, id, {rotated}, now);
        if next.Some? {
          RetiredAfterIssue(between, s.table[rotated].user, next.value, secret);
        }
      } else {
        EvictionRetires(between, s.table[rotated].user, next.value, id);
      }
    case Logout(_, out, now, _) => RevokedIsRetired(s, id, {out}, now);
    case PurgeBatch(gone, _, _) =>
  }

  lemma RetiredStep(s: State, e: Event, secret: string)
    requires Retired(s, secret) && Enabled(s, e)
    ensures Retired(Apply(s, e), secret)
  {
    match e
    case Login(user, g) => RetiredAfterIssue(s, user, g, secret);
    case Rotate(_, id, now, _, next) =>
      if next.Some? {
        RetiredAfterIssue(s.(table := Revoke(s.table, {id}, now)), s.table[id].user, next.value, secret);
      }
    case Logout(_, id, now, _) =>
    case PurgeBatch(gone, _, _) =>
  }

  lemma {:induction false} RetiredForever(s: State, events: seq<Event>, secret: string, now: int, later: int, a: Answer)
    requires Retired(s, secret) && Runs(s, events) && Answers(After(s, events).table, secret, now, later, a)
    ensures !a.Accepted?
    decreases |events|
  {
    if events != [] {
      RetiredStep(s, events[0], secret);
      RetiredForever(Apply(s, events[0]), events[1..], secret, now, later, a);
    }
  }

  /** Whatever happens after a rotation, the token that was presented is refused, at any clock reading. */
  lemma RotatedNeverVerifies(s: State, e: Event, events: seq<Event>, now: int, later: int, a: Answer)
    requires Inv(s) && Enabled(s, e) && e.Rotate? && Runs(Apply(s, e), events)
    requires Answers(After(Apply(s, e), events).table, e.plaintext, now, later, a)
    ensures !a.Accepted?
  {
    RotationRetires(s, e);
    RetiredForever(Apply(s, e), events, e.plaintext, now, later, a);
  }

  /** A session ended in any of the four ways is never accepted again. */
  lemma EndedNeverVerifies(s: State, e: Event, id: Id, user: User, secret: string, expires: int,
                           events: seq<Event>, now: int, later: int, a: Answer)
    requires Inv(s) && Enabled(s, e) && Session(s, id, user, secret, expires) && Ends(e, id) && Runs(Apply(s, e), events)
    requires Answers(After(Apply(s, e), events).table, secret, now, later, a)
    ensures !a.Accepted?
  {
    EndingRetires(s, e, id, user, secret, expires);
    RetiredForever(Apply(s, e), events, secret, now, later, a);
  }

  // ---------------------------------------------------------------------------------------
  // Rotations of one token that overlap
  // ---------------------------------------------------------------------------------------

  /** A rotation in two halves: the token is verified, and later it is revoked and a new one issued. */
  datatype Half = Check(r: nat) | Write(r: nat, grant: Grant)

  /** `passed` are the rotations that have verified the token and not yet written; `rotated` counts those that have. */
  datatype Desk = Desk(state: State, passed: set<nat>, rotated: nat)

  predicate HalfEnabled(d: Desk, id: Id, now: int, h: Half) {
    match h
    case Check(r) => r !in d.passed
    case Write(r, g) =>
      && r in d.passed && id in d.state.table
      && Grantable(d.state, Revoke(d.state.table, {id}, now), d.state.table[id].user, g)
  }

  ghost function HalfDone(d: Desk, plaintext: string, id: Id, now: int, h: Half): Desk
    requires HalfEnabled(d, id, now, h)
  {
    match h
    case Check(r) => if Answers(d.state.table, plaintext, now, now, Accepted(id)) then d.(passed := d.passed + {r}) else d
    case Write(r, g) =>
      Desk(Granted(d.state, Revoke(d.state.table, {id}, now), d.state.table[id].user, g), d.passed - {r}, d.rotated + 1)
  }

  ghost predicate Halves(d: Desk, plaintext: string, id: Id, now: int, hs: seq<Half>)
    decreases |hs|
  {
    hs == [] || (HalfEnabled(d, id, now, hs[0]) && Halves(HalfDone(d, plaintext, id, now, hs[0]), plaintext, id, now, hs[1..]))
  }

  ghost function DeskAfter(d: Desk, plaintext: string, id: Id, now: int, hs: seq<Half>): Desk
    requires Halves(d, plaintext, id, now, hs)
    decreases |hs|
  {
    if hs == [] then d else DeskAfter(HalfDone(d, plaintext, id, now, hs[0]), plaintext, id, now, hs[1..])
  }

  /** Verifications before anything is written. */
  function LeadingChecks(hs: seq<Half>): nat
    decreases |hs|
  {
    if hs == [] || hs[0].Write? then 0 else 1 + LeadingChecks(hs[1..])
  }

  lemma WriteRetires(d: Desk, plaintext: string, id: Id, now: int, h: Half)
    requires HalfEnabled(d, id, now, h) && h.Write? && plaintext in d.state.issued
    requires forall k | k in d.state.table && d.state.table[k].hash.secret == plaintext :: k == id || d.state.table[k].revoked.Some?
    ensures Retired(HalfDone(d, plaintext, id, now, h).state, plaintext)
  {
    var between := d.state.(table := Revoke(d.state.table, {id}, now));
    assert Retired(between, plaintext);
    RetiredAfterIssue(between, d.state.table[id].user, h.grant, plaintext);
  }

  /** Once the token is revoked nobody passes any more; those who passed before may still write. */
  lemma {:induction false} AfterFirstWrite(d: Desk, plaintext: string, id: Id, now: int, hs: seq<Half>)
    requires Retired(d.state, plaintext) && Halves(d, plaintext, id, now, hs)
    ensures var end := DeskAfter(d, plaintext, id, now, hs); end.rotated + |end.passed| == d.rotated + |d.passed|
    decreases |hs|
  {
    if hs != [] {
      if hs[0].Write? {
        WriteRetires(d, plaintext, id, now, hs[0]);
      } else {
        assert !Answers(d.state.table, plaintext, now, now, Accepted(id));
      }
      AfterFirstWrite(HalfDone(d, plaintext, id, now, hs[0]), plaintext, id, now, hs[1..]);
    }
  }

  lemma {:induction false} BeforeFirstWrite(d: Desk, plaintext: string, id: Id, now: int, hs: seq<Half>)
    requires Inv(d.state) && Answers(d.state.table, plaintext, now, now, Accepted(id)) && Halves(d, plaintext, id, now, hs)
    ensures var end := DeskAfter(d, plaintext, id, now, hs); end.rotated + |end.passed| == d.rotated + |d.passed| + LeadingChecks(hs)
    decreases |hs|
  {
    if hs != [] {
      var next := HalfDone(d, plaintext, id, now, hs[0]);
      if hs[0].Write? {
        WriteRetires(d, plaintext, id, now, hs[0]);
        AfterFirstWrite(next, plaintext, id, now, hs[1..]);
      } else {
        BeforeFirstWrite(next, plaintext, id, now, hs[1..]);
      }
    }
  }

  /**
   However the rotations of one live token interleave, as many succeed as verified it before the
   first of them revoked it: it is used once exactly when that is at most one.
   */
  lemma SingleUseIff(s: State, plaintext: string, id: Id, now: int, hs: seq<Half>)
    requires Inv(s) && Answers(s.table, plaintext, now, now, Accepted(id)) && Halves(Desk(s, {}, 0), plaintext, id, now, hs)
    requires DeskAfter(Desk(s, {}, 0), plaintext, id, now, hs).passed == {}
    ensures DeskAfter(Desk(s, {}, 0), plaintext, id, now, hs).rotated == LeadingChecks(hs)
    ensures DeskAfter(Desk(s, {}, 0), plaintext, id, now, hs).rotated <= 1 <==> LeadingChecks(hs) <= 1
  {
    BeforeFirstWrite(Desk(s, {}, 0), plaintext, id, now, hs);
  }

  // ---------------------------------------------------------------------------------------
  // Purging
  // ---------------------------------------------------------------------------------------

  /** Deleting stale rows changes no answer from the deletion's own clock on, in either direction. */
  lemma PurgeIsInvisible(t: Table, gone: set<Id>, cutoff: int, purged: int, plaintext: string, now: int, later: int, a: Answer)
    requires gone <= StaleIds(t, cutoff, purged) && purged <= now && purged <= later
    ensures Answers(t - gone, plaintext, now, later, a) <==> Answers(t, plaintext, now, later, a)
  {
    assert ByLookup(t - gone, plaintext, now) == ByLookup(t, plaintext, now);
    assert Legacy(t - gone, later) == Legacy(t, later);
    assert Candidates(t - gone, plaintext, now, later) == Candidates(t, plaintext, now, later);
  }
}
