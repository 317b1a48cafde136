/**
 API tokens: the 16-character prefix lookup of get_auth_context and the all-rows scan of
 _resolve_user_from_token (backend/app/api/auth.py), and the two places that create tokens
 (backend/app/api/tokens.py). Both lookups first try the same JWT check, which is not modelled.
 */
module ApiTokens {
  import opened Common

  type Id = nat
  type User = nat

  const PREFIX := 16

  /** `secret` stands for the bcrypt hash, which verifies exactly that plaintext. */
  datatype Row = Row(user: User, secret: string, prefix: Option<string>, active: bool, revoked: bool, expires: Option<int>, used: nat)

  type Table = map<Id, Row>

  function PrefixOf(token: string): string {
    if |token| >= PREFIX then token[..PREFIX] else token
  }

  predicate Usable(r: Row) {
    r.active && !r.revoked
  }

  function Matches(t: Table, token: string): set<Id> {
    set id | id in t && Usable(t[id]) && t[id].secret == token
  }

  function PrefixMatches(t: Table, token: string): set<Id> {
    set id | id in t && Usable(t[id]) && t[id].prefix == Some(PrefixOf(token)) && t[id].secret == token
  }

  datatype Verdict = Granted(user: User) | Expired | NoSuchUser | NoMatch

  /** What the first matching row decides; `users` says who exists and is active. */
  function Judge(r: Row, users: map<User, bool>, now: int): Verdict {
    if r.expires.Some? && r.expires.value < now then Expired
    else if r.user in users && users[r.user] then Granted(r.user)
    else NoSuchUser
  }

  ghost predicate Decides(t: Table, hits: set<Id>, users: map<User, bool>, now: int, v: Verdict)
    requires hits <= t.Keys
  {
    if hits == {} then v == NoMatch else exists id :: id in hits && v == Judge(t[id], users, now)
  }

  class Store {
    var rows: Table

    /** get_auth_context: counts a use of the row it accepts, before the user is looked at. */
    method Authenticate(token: string, users: map<User, bool>, now: int) returns (v: Verdict)
      modifies this
      ensures Decides(old(rows), PrefixMatches(old(rows), token), users, now, v)
      ensures v == NoMatch || v == Expired ==> rows == old(rows)
      ensures v.Granted? || v.NoSuchUser? ==>
        exists id :: id in PrefixMatches(old(rows), token) && rows == old(rows)[id := old(rows)[id].(used := old(rows)[id].used + 1)]
    {
      var rest := set id | id in rows && Usable(rows[id]) && rows[id].prefix == Some(PrefixOf(token));
      while rest != {}
        invariant rows == old(rows)
        invariant PrefixMatches(rows, token) <= rest
        invariant forall id | id in rest :: id in rows && Usable(rows[id]) && rows[id].prefix == Some(PrefixOf(token))
        decreases |rest|
      {
        var id :| id in rest;
        var r := rows[id];
        if r.secret == token {
          assert id in PrefixMatches(old(rows), token) && Judge(r, users, now) == Judge(old(rows)[id], users, now);
          if r.expires.Some? && r.expires.value < now {
            return Expired;
          }
          rows := rows[id := r.(used := r.used + 1)];
          return if r.user in users && users[r.user] then Granted(r.user) else NoSuchUser;
        }
        rest := rest - {id};
      }
      v := NoMatch;
    }

    /** _resolve_user_from_token: every usable row in turn. */
    method Resolve(token: string, users: map<User, bool>, now: int) returns (v: Verdict)
      ensures Decides(rows, Matches(rows, token), users, now, v)
    {
      var rest := set id | id in rows && Usable(rows[id]);
      while rest != {}
        invariant Matches(rows, token) <= rest
        invariant forall id | id in rest :: id in rows && Usable(rows[id])
        decreases |rest|
      {
        var id :| id in rest;
        var r := rows[id];
        if r.secret == token {
          assert id in Matches(rows, token);
          return Judge(r, users, now);
        }
        rest := rest - {id};
      }
      v := NoMatch;
    }

    /** create_token */
    method Create(user: User, id: Id, raw: string, expires: Option<int>)
      requires id !in rows && |raw| >= PREFIX
      modifies this
      ensures rows == old(rows)[id := Row(user, raw, Some(raw[..PREFIX]), true, false, expires, 0)]
    {
      rows := rows[id := Row(user, raw, Some(raw[..PREFIX]), true, false, expires, 0)];
    }

    /** regenerate: the old row is revoked and a new one with a fresh expiry takes over. */
    method Regenerate(user: User, oldId: Id, id: Id, raw: string, now: int) returns (found: bool)
      requires id !in rows && |raw| >= PREFIX
      modifies this
      ensures found == (oldId in old(rows) && old(rows)[oldId].user == user)
      ensures !found ==> rows == old(rows)
      ensures found ==> rows == Regenerated(old(rows), user, oldId, id, raw, now)
    {
      if oldId !in rows || rows[oldId].user != user {
        return false;
      }
      var expires := if rows[oldId].expires.Some? then Some(now + 30 * 24 * 3600) else None;
      rows := rows[oldId := rows[oldId].(active := false, revoked := true)];
      rows := rows[id := Row(user, raw, Some(raw[..PREFIX]), true, false, expires, 0)];
      found := true;
    }
  }

  function Regenerated(t: Table, user: User, oldId: Id, id: Id, raw: string, now: int): Table
    requires oldId in t && |raw| >= PREFIX
  {
    t[oldId := t[oldId].(active := false, revoked := true)]
     [id := Row(user, raw, Some(raw[..PREFIX]), true, false, if t[oldId].expires.Some? then Some(now + 30 * 24 * 3600) else None, 0)]
  }

  // ---------------------------------------------------------------------------------------
  // The prefix lookup and the scan
  // ---------------------------------------------------------------------------------------

  ghost predicate DistinctSecrets(t: Table) {
    forall i, j | i in t && j in t && t[i].secret == t[j].secret :: i == j
  }

  /** Every usable row carries the prefix of its own secret. */
  ghost predicate Prefixed(t: Table) {
    forall id | id in t && Usable(t[id]) :: t[id].prefix == Some(PrefixOf(t[id].secret))
  }

  /** For every presented token, clock and user directory, the two lookups give the same verdict. */
  ghost predicate Agree(t: Table) {
    forall token, users, now, fast, full
      | Decides(t, PrefixMatches(t, token), users, now, fast) && Decides(t, Matches(t, token), users, now, full)
      :: fast == full
  }

  /** The prefix lookup resolves what the full scan resolves exactly when usable rows carry their prefix. */
  lemma PrefixLookupAgreesIff(t: Table)
    requires DistinctSecrets(t)
    ensures Agree(t) <==> Prefixed(t)
  {
    if Prefixed(t) {
      forall token, users, now, fast, full
        | Decides(t, PrefixMatches(t, token), users, now, fast) && Decides(t, Matches(t, token), users, now, full)
        ensures fast == full
      {
        assert PrefixMatches(t, token) == Matches(t, token);
      }
    } else {
      var id :| id in t && Usable(t[id]) && t[id].prefix != Some(PrefixOf(t[id].secret));
      var token := t[id].secret;
      var now := if t[id].expires.Some? then t[id].expires.value else 0;
      var users := map[t[id].user := true];
      assert PrefixMatches(t, token) == {};
      assert id in Matches(t, token);
      assert Decides(t, PrefixMatches(t, token), users, now, NoMatch);
      assert Decides(t, Matches(t, token), users, now, Judge(t[id], users, now));
    }
  }

  // ---------------------------------------------------------------------------------------
  // Who is let in
  // ---------------------------------------------------------------------------------------

  /** A usable row for the token that has not run out. */
  predicate Good(r: Row, token: string, now: int) {
    r.active && !r.revoked && r.secret == token && (r.expires.None? || r.expires.value >= now)
  }

  /** A usable row for the token that has. */
  predicate RunOut(r: Row, token: string, now: int) {
    r.active && !r.revoked && r.secret == token && r.expires.Some? && r.expires.value < now
  }

  /** The scan lets in exactly the active owner of an active, unrevoked, unexpired row with this secret. */
  lemma ScanGrantsIff(t: Table, token: string, users: map<User, bool>, now: int, v: Verdict, u: User)
    requires DistinctSecrets(t) && Decides(t, Matches(t, token), users, now, v)
    ensures v == Granted(u) <==> (exists id :: id in t && Good(t[id], token, now) && t[id].user == u) && u in users && users[u]
    ensures v == Expired <==> exists id :: id in t && RunOut(t[id], token, now)
  {
    if id :| id in t && RunOut(t[id], token, now) {
      assert Matches(t, token) == {id};
    }
    if id :| id in t && Good(t[id], token, now) && t[id].user == u {
      assert Matches(t, token) == {id};
    }
    if v == Granted(u) {
      var id :| id in Matches(t, token) && v == Judge(t[id], users, now);
      assert Good(t[id], token, now) && t[id].user == u;
    }
    if v == Expired {
      var id :| id in Matches(t, token) && v == Judge(t[id], users, now);
      assert RunOut(t[id], token, now);
    }
  }

  /** So does the prefix lookup, of rows that carry the token's first sixteen characters. */
  lemma PrefixGrantsIff(t: Table, token: string, users: map<User, bool>, now: int, v: Verdict, u: User)
    requires DistinctSecrets(t) && |token| >= 16 && Decides(t, PrefixMatches(t, token), users, now, v)
    ensures v == Granted(u) <==>
      (exists id :: id in t && Good(t[id], token, now) && t[id].prefix == Some(token[..16]) && t[id].user == u) && u in users && users[u]
  {
    if id :| id in t && Good(t[id], token, now) && t[id].prefix == Some(token[..16]) && t[id].user == u {
      assert PrefixMatches(t, token) == {id};
    }
    if v == Granted(u) {
      var id :| id in PrefixMatches(t, token) && v == Judge(t[id], users, now);
      assert Good(t[id], token, now) && t[id].prefix == Some(token[..16]) && t[id].user == u;
    }
  }

  /** A row from before the prefix column was added has none and is reachable only by the scan. */
  lemma LegacyRowIsMissed(row: Row)
    requires Usable(row) && row.prefix.None?
    ensures !Agree(map[0 := row])
  {
    PrefixLookupAgreesIff(map[0 := row]);
    assert 0 in map[0 := row];
  }

  /** Both ways of creating a token keep the condition, given a secret never used before. */
  lemma CreationKeepsAgreement(t: Table, user: User, id: Id, raw: string, expires: Option<int>)
    requires DistinctSecrets(t) && Prefixed(t) && id !in t && |raw| >= PREFIX
    requires forall k | k in t :: t[k].secret != raw
    ensures var after := t[id := Row(user, raw, Some(raw[..PREFIX]), true, false, expires, 0)]; DistinctSecrets(after) && Agree(after)
  {
    PrefixLookupAgreesIff(t[id := Row(user, raw, Some(raw[..PREFIX]), true, false, expires, 0)]);
  }

  lemma RegenerationKeepsAgreement(t: Table, user: User, oldId: Id, id: Id, raw: string, now: int)
    requires DistinctSecrets(t) && Prefixed(t) && oldId in t && id !in t && |raw| >= PREFIX
    requires forall k | k in t :: t[k].secret != raw
    ensures var after := Regenerated(t, user, oldId, id, raw, now);
      DistinctSecrets(after) && Agree(after) && Matches(after, t[oldId].secret) == {} && Matches(after, raw) == {id}
  {
    var between := t[oldId := t[oldId].(active := false, revoked := true)];
    assert DistinctSecrets(between) && Prefixed(between);
    PrefixLookupAgreesIff(Regenerated(t, user, oldId, id, raw, now));
  }
}
