/**
 Refresh tokens (backend/app/api/auth.py, backend/app/models/refresh_token.py).

 Hashing is idealised: bcrypt verifies exactly the secret it was made from, and SHA-256 has no
 collisions. The table maps primary keys to rows.
 */
module RefreshTokens {
  import opened Common

  type Id = nat
  type User = nat

  const MAX_PER_USER := 10
  const PURGE_BATCH := 10000
  const RETENTION := 30 * 24 * 3600   // times are in seconds

  datatype Hash = Bcrypt(secret: string, salt: nat)

  datatype Digest = Sha256(of: string)

  datatype Row = Row(user: User, hash: Hash, lookup: Option<Digest>, created: int, expires: int, revoked: Option<int>)

  type Table = map<Id, Row>

  predicate Verifies(plaintext: string, hash: Hash) {
    hash.secret == plaintext
  }

  predicate Live(r: Row, now: int) {
    r.revoked.None? && r.expires > now
  }

  /** The sessions that count against a user's cap; an expired row counts until it is purged. */
  function Active(t: Table, user: User): set<Id> {
    set id | id in t && t[id].user == user && t[id].revoked.None?
  }

  // ---------------------------------------------------------------------------------------
  // Verification
  // ---------------------------------------------------------------------------------------

  datatype Answer = Accepted(id: Id) | Refused | MultipleRows

  function ByLookup(t: Table, plaintext: string, now: int): set<Id> {
    set id | id in t && t[id].lookup == Some(Sha256(plaintext)) && Live(t[id], now)
  }

  function Legacy(t: Table, now: int): set<Id> {
    set id | id in t && t[id].lookup.None? && Live(t[id], now)
  }

  /** The rows the two queries can lead to; the clock is read once for each query. */
  function Candidates(t: Table, plaintext: string, now: int, later: int): set<Id> {
    set id | id in ByLookup(t, plaintext, now) + Legacy(t, later) && Verifies(plaintext, t[id].hash)
  }

  ghost predicate Answers(t: Table, plaintext: string, now: int, later: int, a: Answer) {
    match a
    case MultipleRows => |ByLookup(t, plaintext, now)| > 1
    case Refused => |ByLookup(t, plaintext, now)| <= 1 && Candidates(t, plaintext, now, later) == {}
    case Accepted(id) => |ByLookup(t, plaintext, now)| <= 1 && id in Candidates(t, plaintext, now, later)
  }

  /** The reference: every live row, compared one by one. */
  function Scan(t: Table, plaintext: string, now: int): set<Id> {
    set id | id in t && Live(t[id], now) && Verifies(plaintext, t[id].hash)
  }

  /** What creation sets: lookups are digests of the hashed secret, and secrets are not reused. */
  ghost predicate WellFormed(t: Table) {
    && (forall id | id in t :: t[id].lookup.Some? ==> t[id].lookup == Some(Sha256(t[id].hash.secret)))
    && (forall i, j | i in t && j in t && t[i].hash.secret == t[j].hash.secret :: i == j)
  }

  /** Every answer to the secret is the session before `expires` and a refusal from then on. */
  ghost predicate AcceptedUntil(t: Table, secret: string, id: Id, user: User, expires: int) {
    && id in t && t[id].user == user
    && forall now, later, a | now <= later && Answers(t, secret, now, later, a) :: a == if now < expires then Accepted(id) else Refused
  }

  // ---------------------------------------------------------------------------------------
  // Changes to the table
  // ---------------------------------------------------------------------------------------

  function Revoke(t: Table, ids: set<Id>, now: int): Table {
    map id | id in t :: if id in ids then t[id].(revoked := Some(now)) else t[id]
  }

  /** How many sessions must go so that one more fits. */
  function Surplus(n: nat): nat {
    if n >= MAX_PER_USER then n - MAX_PER_USER + 1 else 0
  }

  /** `evicted` is a choice of the oldest surplus sessions (ties may be broken either way). */
  predicate Oldest(t: Table, user: User, evicted: set<Id>) {
    && evicted <= Active(t, user)
    && |evicted| == Surplus(|Active(t, user)|)
    && forall e, k | e in evicted && k in Active(t, user) - evicted :: t[e].created <= t[k].created
  }

  datatype Grant = Grant(id: Id, secret: string, salt: nat, evicted: set<Id>, now: int, created: int, expires: int)

  function Issue(t: Table, user: User, g: Grant): Table {
    Revoke(t, g.evicted, g.now)[g.id := Row(user, Bcrypt(g.secret, g.salt), Some(Sha256(g.secret)), g.created, g.expires, None)]
  }

  predicate Stale(r: Row, cutoff: int, now: int) {
    r.expires < now || (r.revoked.Some? && r.revoked.value < cutoff)
  }

  function StaleIds(t: Table, cutoff: int, now: int): set<Id> {
    set id | id in t && Stale(t[id], cutoff, now)
  }

  // ---------------------------------------------------------------------------------------
  // The code
  // ---------------------------------------------------------------------------------------

  datatype Outcome = Unauthorized | ServerError | Rotated(secret: string)

  lemma SomeOldest(t: Table, ids: set<Id>)
    requires ids != {} && ids <= t.Keys
    ensures exists id :: id in ids && forall j | j in ids :: t[id].created <= t[j].created
    decreases |ids|
  {
    var x :| x in ids;
    if ids != {x} {
      SomeOldest(t, ids - {x});
      var y :| y in ids - {x} && forall j | j in ids - {x} :: t[y].created <= t[j].created;
      var best := if t[x].created <= t[y].created then x else y;
      assert best in ids && forall j | j in ids :: t[best].created <= t[j].created;
    }
  }

  lemma RevokeOne(t: Table, ids: set<Id>, id: Id, now: int)
    requires id in t
    ensures var done := Revoke(t, ids, now); done[id := done[id].(revoked := Some(now))] == Revoke(t, ids + {id}, now)
  {
  }

  /** The head of the ordered query result is a choice of the oldest sessions. */
  lemma HeadIsOldest(t: Table, user: User, ids: seq<Id>)
    requires forall i | 0 <= i < |ids| :: ids[i] in t
    requires forall i, j | 0 <= i < j < |ids| :: ids[i] != ids[j] && t[ids[i]].created <= t[ids[j]].created
    requires Active(t, user) == Elements(ids)
    ensures Oldest(t, user, Elements(ids[..Surplus(|ids|)]))
  {
    var head := ids[..Surplus(|ids|)];
    DistinctCount(ids);
    DistinctCount(head);
    assert forall x | 0 <= x < |head| :: head[x] == ids[x] && ids[x] in Elements(head);
    forall e, k | e in Elements(head) && k in Active(t, user) - Elements(head) ensures t[e].created <= t[k].created {
      var m :| 0 <= m < |head| && head[m] == e;
      var n :| 0 <= n < |ids| && ids[n] == k;
      assert ids[m] == e && n >= |head|;
    }
  }

  /** A table that gained one row with a new secret, its lookup and its expiry answers to that secret with it. */
  lemma NewRowAccepted(t: Table, after: Table, id: Id, user: User, secret: string, expires: int)
    requires WellFormed(t) && (forall k | k in t :: t[k].hash.secret != secret) && id !in t && after.Keys == t.Keys + {id}
    requires forall k | k in t :: after[k].hash == t[k].hash && after[k].lookup == t[k].lookup
    requires after[id].user == user && after[id].hash.secret == secret && after[id].lookup == Some(Sha256(secret))
    requires after[id].expires == expires && after[id].revoked.None?
    ensures WellFormed(after) && AcceptedUntil(after, secret, id, user, expires)
  {
    assert forall k | k in after && k != id :: k in t;
    assert forall k | k in t :: t[k].lookup.Some? ==> t[k].lookup == Some(Sha256(t[k].hash.secret));
    forall now, later, a | now <= later && Answers(after, secret, now, later, a)
      ensures a == if now < expires then Accepted(id) else Refused
    {
      SoleRowAnswers(after, id, secret, now, later, a);
    }
  }

  /** A secret only one row is about, by lookup and by hash, is answered by that row alone. */
  lemma SoleRowAnswers(t: Table, id: Id, secret: string, now: int, later: int, a: Answer)
    requires id in t && t[id].hash.secret == secret && t[id].lookup == Some(Sha256(secret)) && t[id].revoked.None?
    requires forall k | k in t && k != id :: t[k].hash.secret != secret && t[k].lookup != Some(Sha256(secret))
    requires Answers(t, secret, now, later, a)
    ensures a == if now < t[id].expires then Accepted(id) else Refused
  {
    assert ByLookup(t, secret, now) == if now < t[id].expires then {id} else {};
    assert Candidates(t, secret, now, later) == ByLookup(t, secret, now);
  }

  /** Verified on a well-formed table, revoked, and replaced: the old secret is dead and the new one lives. */
  lemma RotationWorks(before: Table, revoked: Table, after: Table, old_: Id, plaintext: string, now: int, user: User, g: Grant)
    requires WellFormed(before) && (forall k | k in before :: before[k].hash.secret != g.secret) && g.id !in before
    requires old_ in before && before[old_].hash.secret == plaintext && revoked == Revoke(before, {old_}, now)
    requires after == Issue(revoked, user, g)
    ensures AcceptedUntil(after, g.secret, g.id, user, g.expires)
    ensures forall n, m, b | Answers(after, plaintext, n, m, b) :: !b.Accepted?
  {
    NewRowAccepted(before, after, g.id, user, g.secret, g.expires);
    forall n, m, b | Answers(after, plaintext, n, m, b) ensures !b.Accepted? {
      forall k | k in after && after[k].hash.secret == plaintext ensures after[k].revoked.Some? {
        assert k == old_;
      }
    }
  }

  class Store {
    var rows: Table

    /** SELECT the user's unrevoked rows ORDER BY created_at. */
    method OldestFirst(user: User) returns (ids: seq<Id>)
      ensures forall i | 0 <= i < |ids| :: ids[i] in rows && ids[i] in Active(rows, user)
      ensures forall i, j | 0 <= i < j < |ids| :: ids[i] != ids[j] && rows[ids[i]].created <= rows[ids[j]].created
      ensures Active(rows, user) == Elements(ids)
    {
      var rest := Active(rows, user);
      ids := [];
      while rest != {}
        invariant rest <= Active(rows, user)
        invariant forall i | 0 <= i < |ids| :: ids[i] in Active(rows, user) - rest
        invariant forall i, r | 0 <= i < |ids| && r in rest :: rows[ids[i]].created <= rows[r].created
        invariant forall i, j | 0 <= i < j < |ids| :: ids[i] != ids[j] && rows[ids[i]].created <= rows[ids[j]].created
        invariant forall id | id in Active(rows, user) - rest :: id in ids
        decreases |rest|
      {
        SomeOldest(rows, rest);
        var id :| id in rest && forall j | j in rest :: rows[id].created <= rows[j].created;
        ids := ids + [id];
        rest := rest - {id};
      }
    }

    /** _enforce_refresh_token_limit: the loop revokes the head of the ordered result. */
    method EnforceLimit(user: User, now: int) returns (ghost evicted: set<Id>)
      modifies this
      ensures Oldest(old(rows), user, evicted)
      ensures rows == Revoke(old(rows), evicted, now)
    {
      var ids := OldestFirst(user);
      evicted := Elements(ids[..Surplus(|ids|)]);
      HeadIsOldest(rows, user, ids);
      if |ids| >= MAX_PER_USER {
        RevokeAll(ids[..|ids| - MAX_PER_USER + 1], now);
      }
    }

    /** The loop: each row in turn is marked revoked. */
    method RevokeAll(ids: seq<Id>, now: int)
      requires forall i | 0 <= i < |ids| :: ids[i] in rows
      modifies this
      ensures rows == Revoke(old(rows), Elements(ids), now)
    {
      assert rows == Revoke(rows, {}, now);
      for i := 0 to |ids|
        invariant rows == Revoke(old(rows), Elements(ids[..i]), now)
      {
        RevokeOne(old(rows), Elements(ids[..i]), ids[i], now);
        rows := rows[ids[i] := rows[ids[i]].(revoked := Some(now))];
        assert ids[..i + 1] == ids[..i] + [ids[i]];
        assert Elements(ids[..i + 1]) == Elements(ids[..i]) + {ids[i]};
      }
      assert ids[..|ids|] == ids;
    }

    /** create_refresh_token_for_user, with the random secret, key and clock readings given. */
    method Create(user: User, id: Id, secret: string, salt: nat, now: int, created: int, expires: int)
      returns (plaintext: string, ghost g: Grant)
      requires id !in rows
      modifies this
      ensures plaintext == secret
      ensures g == Grant(id, secret, salt, g.evicted, now, created, expires) && Oldest(old(rows), user, g.evicted)
      ensures rows == Issue(old(rows), user, g)
      ensures WellFormed(old(rows)) && (forall k | k in old(rows) :: old(rows)[k].hash.secret != secret) ==>
        WellFormed(rows) && AcceptedUntil(rows, secret, id, user, expires)
    {
      ghost var before := rows;
      var evicted := EnforceLimit(user, now);
      g := Grant(id, secret, salt, evicted, now, created, expires);
      rows := rows[id := Row(user, Bcrypt(secret, salt), Some(Sha256(secret)), created, expires, None)];
      plaintext := secret;
      if WellFormed(before) && (forall k | k in before :: before[k].hash.secret != secret) {
        NewRowAccepted(before, rows, id, user, secret, expires);
      }
    }

    /** verify_refresh_token: indexed lookup, then the legacy rows in whatever order they come. */
    method Verify(plaintext: string, now: int, later: int) returns (a: Answer)
      ensures Answers(rows, plaintext, now, later, a)
      ensures a.Accepted? ==> a.id in rows && rows[a.id].hash.secret == plaintext && rows[a.id].revoked.None?
      ensures a.Accepted? ==>
        if rows[a.id].lookup.Some? then rows[a.id].lookup == Some(Sha256(plaintext)) && rows[a.id].expires > now else rows[a.id].expires > later
      ensures a.Refused? ==> forall id | id in rows && rows[id].hash.secret == plaintext && rows[id].revoked.None? ::
        if rows[id].lookup.Some? then rows[id].lookup != Some(Sha256(plaintext)) || rows[id].expires <= now else rows[id].expires <= later
    {
      var hits := ByLookup(rows, plaintext, now);
      if |hits| > 1 {
        return MultipleRows;
      }
      if hits != {} {
        var id :| id in hits;
        if Verifies(plaintext, rows[id].hash) {
          return Accepted(id);
        }
        Lonely(hits, id);
      }
      var rest := Legacy(rows, later);
      while rest != {}
        invariant rest <= Legacy(rows, later)
        invariant forall id | id in Legacy(rows, later) - rest :: !Verifies(plaintext, rows[id].hash)
        decreases |rest|
      {
        var id :| id in rest;
        if Verifies(plaintext, rows[id].hash) {
          return Accepted(id);
        }
        rest := rest - {id};
      }
      a := Refused;
      forall id | id in rows && rows[id].hash.secret == plaintext && rows[id].revoked.None?
        ensures if rows[id].lookup.Some? then rows[id].lookup != Some(Sha256(plaintext)) || rows[id].expires <= now else rows[id].expires <= later
      {
        assert id !in Candidates(rows, plaintext, now, later);
      }
    }

    /** refresh_token_endpoint; `users` says which users exist and which of them are active. */
    method Refresh(plaintext: string, users: map<User, bool>, now: int, later: int,
                   id: Id, secret: string, salt: nat, created: int, expires: int)
      returns (out: Outcome, a: Answer, ghost g: Grant)
      requires id !in rows
      modifies this
      ensures Answers(old(rows), plaintext, now, later, a)
      ensures out.ServerError? <==> a.MultipleRows?
      ensures !a.Accepted? ==> rows == old(rows) && !out.Rotated?
      ensures a.Accepted? && !(old(rows)[a.id].user in users && users[old(rows)[a.id].user]) ==>
        rows == Revoke(old(rows), {a.id}, now) && out == Unauthorized
      ensures a.Accepted? && old(rows)[a.id].user in users && users[old(rows)[a.id].user] ==>
        && g == Grant(id, secret, salt, g.evicted, now, created, expires)
        && Oldest(Revoke(old(rows), {a.id}, now), old(rows)[a.id].user, g.evicted)
        && rows == Issue(Revoke(old(rows), {a.id}, now), old(rows)[a.id].user, g)
        && out == Rotated(secret)
      ensures out.Rotated? && WellFormed(old(rows)) && (forall k | k in old(rows) :: old(rows)[k].hash.secret != secret) ==>
        && AcceptedUntil(rows, secret, id, old(rows)[a.id].user, expires)
        && forall n, m, b | Answers(rows, plaintext, n, m, b) :: !b.Accepted?
    {
      g := Grant(id, secret, salt, {}, now, created, expires);
      a := Verify(plaintext, now, later);
      if a.MultipleRows? {
        return ServerError, a, g;
      }
      if a.Refused? {
        return Unauthorized, a, g;
      }
      var user := rows[a.id].user;
      ghost var before := rows;
      rows := rows[a.id := rows[a.id].(revoked := Some(now))];
      assert rows == Revoke(before, {a.id}, now);
      if user !in users || !users[user] {
        return Unauthorized, a, g;
      }
      ghost var revoked := rows;
      var issued, grant := Create(user, id, secret, salt, now, created, expires);
      g := grant;
      out := Rotated(issued);
      if WellFormed(before) && (forall k | k in before :: before[k].hash.secret != secret) {
        RotationWorks(before, revoked, rows, a.id, plaintext, now, user, g);
      }
    }

    /**
     cleanup_expired_refresh_tokens: each batch is its own transaction with its own NOW(), given by
     `clock`; the retention cutoff is computed once. Returns the count and the number of batches.
     */
    method Purge(start: int, clock: nat -> int) returns (total: nat, batches: nat)
      requires forall i: nat, j: nat | i <= j :: clock(i) <= clock(j)
      modifies this
      ensures batches >= 1
      ensures rows == old(rows) - StaleIds(old(rows), start - RETENTION, clock(batches - 1))
      ensures forall id | id in old(rows) :: id in rows <==>
        old(rows)[id].expires >= clock(batches - 1)
        && (old(rows)[id].revoked.Some? ==> old(rows)[id].revoked.value >= start - 30 * 24 * 3600)
      ensures total == |old(rows)| - |rows| && batches == total / 10000 + 1
    {
      var cutoff := start - RETENTION;
      total, batches := 0, 0;
      ghost var gone: set<Id> := {};
      assert rows == old(rows) - gone;
      while true
        invariant rows == old(rows) - gone
        invariant gone <= StaleIds(old(rows), cutoff, clock(batches))
        invariant total == |gone| && total == |old(rows)| - |rows| && total == batches * PURGE_BATCH
        decreases |rows|
      {
        var stale := StaleIds(rows, cutoff, clock(batches));
        var chosen := TakeSome(stale, PURGE_BATCH);
        BatchStep(old(rows), gone, chosen, cutoff, clock(batches), clock(batches + 1));
        gone := gone + chosen;
        rows := rows - chosen;
        total := total + |chosen|;
        batches := batches + 1;
        if |chosen| < PURGE_BATCH {
          break;
        }
      }
    }
  }

  /** SELECT … LIMIT n without an order: any n of them, or all when there are fewer. */
  method TakeSome(ids: set<Id>, n: nat) returns (chosen: set<Id>)
    ensures chosen <= ids && |chosen| <= n
    ensures |chosen| < n ==> chosen == ids
  {
    chosen := {};
    var rest := ids;
    while rest != {} && |chosen| < n
      invariant chosen + rest == ids && chosen !! rest
      invariant |chosen| <= n
      decreases |rest|
    {
      var id :| id in rest;
      chosen := chosen + {id};
      rest := rest - {id};
    }
  }

  function Elements(ids: seq<Id>): set<Id> {
    set id | id in ids
  }

  /** One batch: rows deleted so far and now are stale by the batch's clock, hence by every later one. */
  lemma BatchStep(t: Table, gone: set<Id>, chosen: set<Id>, cutoff: int, now: int, next: int)
    requires gone <= StaleIds(t, cutoff, now) && now <= next
    requires chosen <= StaleIds(t - gone, cutoff, now)
    ensures (t - gone) - chosen == t - (gone + chosen)
    ensures gone + chosen <= StaleIds(t, cutoff, next) && |gone + chosen| == |gone| + |chosen|
    ensures |(t - gone) - chosen| == |t - gone| - |chosen|
    ensures chosen == StaleIds(t - gone, cutoff, now) ==> gone + chosen == StaleIds(t, cutoff, now)
  {
    StaleInRest(t, gone, cutoff, now);
    assert gone !! chosen;
    Shrinks(t - gone, chosen);
    assert (t - gone) - chosen == t - (gone + chosen);
  }

  lemma StaleInRest(t: Table, gone: set<Id>, cutoff: int, now: int)
    ensures StaleIds(t - gone, cutoff, now) == StaleIds(t, cutoff, now) - gone
  {
  }

  lemma Shrinks(t: Table, ids: set<Id>)
    requires ids <= t.Keys
    ensures |t - ids| == |t| - |ids|
  {
    assert (t - ids).Keys == t.Keys - ids;
    assert |t.Keys - ids| == |t.Keys| - |ids|;
    assert |(t - ids).Keys| == |t - ids|;
  }

  lemma {:induction false} DistinctCount(ids: seq<Id>)
    requires forall i, j | 0 <= i < j < |ids| :: ids[i] != ids[j]
    ensures |Elements(ids)| == |ids|
  {
    if ids == [] {
      assert Elements(ids) == {};
    } else {
      var last := |ids| - 1;
      DistinctCount(ids[..last]);
      assert ids == ids[..last] + [ids[last]];
      assert Elements(ids) == Elements(ids[..last]) + {ids[last]};
    }
  }

  lemma Lonely(s: set<Id>, x: Id)
    requires x in s && |s| <= 1
    ensures s == {x}
  {
    assert |s - {x}| == 0;
    assert s == (s - {x}) + {x};
  }
}
