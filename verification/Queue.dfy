/**
 The queued-server pass (backend/app/tasks.py, process_server_queue, with get_next_in_queue of
 backend/app/services/resource_pool_service.py and the device allocator).

 Entry statuses live in the database session: `entries` is what the session sees and `saved` what
 was last committed, because a lost allocation rolls the session back.
 */
module Queue {
  import opened Common
  import Fleet

  type Eid = nat
  type User = nat
  type Sid = Fleet.Sid
  type PlanId = Fleet.PlanId
  type Device = Fleet.Device

  const QUEUE_TIMEOUT := 3600

  datatype Status = Pending | Cancelled | Failed | Started

  datatype Entry = Entry(user: User, plan: PlanId, priority: int, requested: int, status: Status, retries: nat)

  datatype Plan = Plan(active: bool, cost: int, gpus: nat)

  /** `entry` is bookkeeping: the queue entry the server was spawned for, if any. */
  datatype Server = Server(user: User, plan: PlanId, entry: Option<Eid>)

  datatype Charge = Charge(user: User, amount: int, entry: Eid)

  datatype State = State(
    entries: map<Eid, Entry>,
    saved: map<Eid, Entry>,
    rows: map<Device, Sid>,
    servers: map<Sid, Server>,
    balance: map<User, int>,
    charges: seq<Charge>,    // taken in this pass
    serial: Sid              // the next server key; keys are never drawn twice
  )

  /** What the pass reads and what the outside world answers. */
  datatype World = World(
    pool: seq<Device>,
    plans: map<PlanId, Plan>,
    users: map<User, bool>,
    credits: bool,
    fits: (map<Sid, Server>, PlanId) -> bool,
    quota: (map<Sid, Server>, User, PlanId) -> bool,
    payFails: Eid -> bool,
    spawns: Eid -> bool,
    notifies: Eid -> bool    // a notification that is written commits the session
  )

  // ---------------------------------------------------------------------------------------
  // Choosing the next entry
  // ---------------------------------------------------------------------------------------

  function Waiting(s: State): set<Eid> {
    set e | e in s.entries && s.entries[e].status == Pending
  }

  function Fitting(w: World, s: State): set<Eid> {
    set e | e in Waiting(s) && s.entries[e].plan in w.plans && w.fits(s.servers, s.entries[e].plan)
  }

  predicate Before(a: Entry, b: Entry) {
    a.priority > b.priority || (a.priority == b.priority && a.requested < b.requested)
  }

  /** A possible answer of get_next_in_queue: fits, and no fitting entry comes before it. */
  predicate Ready(w: World, s: State, e: Eid) {
    e in Fitting(w, s) && forall o | o in Fitting(w, s) :: !Before(s.entries[o], s.entries[e])
  }

  // ---------------------------------------------------------------------------------------
  // One iteration, by its fate
  // ---------------------------------------------------------------------------------------

  datatype Fate = Rejected | NoDevices | RolledBack | Unpaid | SpawnFailed | Launched

  function PlanOf(w: World, s: State, e: Eid): Plan
    requires e in Fitting(w, s)
  {
    w.plans[s.entries[e].plan]
  }

  function Balance(s: State, user: User): int {
    if user in s.balance then s.balance[user] else 0
  }

  predicate Priced(w: World, plan: Plan) {
    w.credits && plan.cost > 0
  }

  predicate Turned(w: World, s: State, e: Eid)
    requires e in Fitting(w, s)
  {
    var x, plan := s.entries[e], PlanOf(w, s, e);
    || !plan.active
    || !(x.user in w.users && w.users[x.user])
    || !w.quota(s.servers, x.user, x.plan)
    || (Priced(w, plan) && Balance(s, x.user) < plan.cost)
  }

  predicate NeedsDevices(w: World, plan: Plan) {
    w.pool != [] && plan.gpus > 0
  }

  function FateOf(w: World, s: State, e: Eid): Fate
    requires e in Fitting(w, s)
  {
    var plan, free := PlanOf(w, s, e), Fleet.Free(w.pool, s.rows);
    if Turned(w, s, e) then Rejected
    else if NeedsDevices(w, plan) && |free| < plan.gpus then NoDevices
    else if NeedsDevices(w, plan) && !Fleet.Distinct(free[..plan.gpus]) then RolledBack
    else if Priced(w, plan) && w.payFails(e) then Unpaid
    else if !w.spawns(e) then SpawnFailed
    else Launched
  }

  function Fail(entries: map<Eid, Entry>, e: Eid, retry: nat): map<Eid, Entry>
    requires e in entries
  {
    entries[e := entries[e].(status := Failed, retries := entries[e].retries + retry)]
  }

  function Take(rows: map<Device, Sid>, taken: set<Device>, sid: Sid): map<Device, Sid> {
    rows + map d | d in taken :: sid
  }

  /** The devices the allocator picks: the first free ones in pool order. */
  function Picked(w: World, s: State, plan: Plan): set<Device> {
    var free := Fleet.Free(w.pool, s.rows);
    if NeedsDevices(w, plan) && plan.gpus <= |free| then set d | d in free[..plan.gpus] else {}
  }

  function Debited(s: State, user: User, cost: int, e: Eid): State {
    s.(balance := s.balance[user := Balance(s, user) - cost], charges := s.charges + [Charge(user, cost, e)])
  }

  function Charged(w: World, s: State, user: User, plan: Plan, e: Eid): State {
    if Priced(w, plan) then Debited(s, user, plan.cost, e) else s
  }

  function Returned(s: State, e: Eid, sid: Sid, saved: map<Eid, Entry>): State
    requires e in s.entries
  {
    s.(rows := s.rows - Fleet.Held(s.rows, sid), entries := Fail(s.entries, e, 1), saved := saved)
  }

  /** Session contents after the iteration; what is committed is left to `saved`. */
  function Iterate(w: World, s: State, e: Eid, saved: map<Eid, Entry>): State
    requires e in Fitting(w, s) && s.saved.Keys == s.entries.Keys
  {
    var drawn := s.(serial := s.serial + 1, saved := saved);
    match FateOf(w, s, e)
    case Rejected => s.(entries := Fail(s.entries, e, 0), saved := saved)
    case NoDevices => drawn.(entries := Fail(s.entries, e, 0))
    case RolledBack => drawn.(entries := Fail(s.saved, e, 0))
    case Unpaid => drawn.(entries := Fail(s.entries, e, 1))
    case SpawnFailed => Charged(w, s, s.entries[e].user, PlanOf(w, s, e), e).(entries := Fail(s.entries, e, 1), serial := s.serial + 1, saved := saved)
    case Launched =>
      var x := s.entries[e];
      Charged(w, s, s.entries[e].user, PlanOf(w, s, e), e).(
        entries := s.entries[e := x.(status := Started)], serial := s.serial + 1, saved := saved,
        rows := Take(s.rows, Picked(w, s, PlanOf(w, s, e)), s.serial),
        servers := s.servers[s.serial := Server(x.user, x.plan, Some(e))])
  }

  /** No server key in use is still to be drawn. */
  ghost predicate KeysDrawn(s: State) {
    && s.saved.Keys == s.entries.Keys
    && (forall sid | sid in s.servers :: sid < s.serial)
    && (forall d | d in s.rows :: s.rows[d] < s.serial)
  }

  // ---------------------------------------------------------------------------------------
  // The device table
  // ---------------------------------------------------------------------------------------

  lemma {:induction false} SameFree(pool: seq<Device>, a: map<Device, Sid>, b: map<Device, Sid>)
    requires forall d | d in pool :: d in a <==> d in b
    ensures Fleet.Free(pool, a) == Fleet.Free(pool, b)
    decreases |pool|
  {
    if pool != [] {
      SameFree(pool[1..], a, b);
    }
  }

  /** Taking free devices takes exactly that many off the free list. */
  lemma {:induction false} FreeTaken(pool: seq<Device>, rows: map<Device, Sid>, sid: Sid, taken: set<Device>)
    requires Fleet.Distinct(pool) && forall d | d in taken :: d in pool && d !in rows
    ensures |Fleet.Free(pool, Take(rows, taken, sid))| == |Fleet.Free(pool, rows)| - |taken|
    decreases |pool|
  {
    if pool == [] {
      assert taken == {};
    } else {
      var d, rest := pool[0], taken - {pool[0]};
      assert d !in pool[1..];
      FreeTaken(pool[1..], rows, sid, rest);
      SameFree(pool[1..], Take(rows, taken, sid), Take(rows, rest, sid));
      if d in taken {
        assert |rest| == |taken| - 1;
      } else {
        assert rest == taken;
      }
    }
  }

  /** A reservation under a new key is exactly what that key holds; releasing it restores the table. */
  lemma ReserveThenRelease(rows: map<Device, Sid>, taken: set<Device>, sid: Sid)
    requires forall d | d in taken :: d !in rows
    requires forall d | d in rows :: rows[d] != sid
    ensures Fleet.Held(Take(rows, taken, sid), sid) == taken
    ensures Take(rows, taken, sid) - Fleet.Held(Take(rows, taken, sid), sid) == rows
  {
    var after := Take(rows, taken, sid);
    assert forall d | d in taken :: d in after && after[d] == sid;
    assert forall d | d in rows :: d in after && after[d] == rows[d];
    assert Fleet.Held(after, sid) == taken;
    assert after.Keys - taken == rows.Keys;
  }

  lemma PickedIsFree(w: World, s: State, plan: Plan)
    ensures forall d | d in Picked(w, s, plan) :: d in w.pool && d !in s.rows
    ensures Fleet.Distinct(w.pool) && NeedsDevices(w, plan) && plan.gpus <= |Fleet.Free(w.pool, s.rows)| ==>
      Fleet.Distinct(Fleet.Free(w.pool, s.rows)[..plan.gpus]) && |Picked(w, s, plan)| == plan.gpus
  {
    var free := Fleet.Free(w.pool, s.rows);
    Fleet.FreeIsFree(w.pool, s.rows);
    if Fleet.Distinct(w.pool) && NeedsDevices(w, plan) && plan.gpus <= |free| {
      Fleet.DistinctSize(free[..plan.gpus]);
    }
  }

  /** `n` is the outcome of an iteration on `e`; a rollback commits nothing. */
  ghost predicate Iterated(w: World, s: State, e: Eid, n: State, started: bool)
    requires e in Fitting(w, s) && s.saved.Keys == s.entries.Keys
  {
    && n == Iterate(w, s, e, n.saved) && n.saved.Keys == s.entries.Keys
    && started == (FateOf(w, s, e) == Launched)
    && (FateOf(w, s, e) == RolledBack ==> n.saved == s.saved)
  }

  /** No devices: too few of them, or one listed twice among those picked. */
  lemma DeniedMatches(w: World, s: State, e: Eid, n: State)
    requires e in Fitting(w, s) && s.saved.Keys == s.entries.Keys && !Turned(w, s, e) && !Suffices(w, s.rows, PlanOf(w, s, e))
    requires n == s.(serial := s.serial + 1,
      entries := Fail(if |Fleet.Free(w.pool, s.rows)| < PlanOf(w, s, e).gpus then s.entries else s.saved, e, 0))
    ensures Iterated(w, s, e, n, false)
  {
  }

  /** The devices are reserved under the key just drawn. */
  ghost predicate Reserved(w: World, s: State, e: Eid, r: State)
    requires e in Fitting(w, s)
  {
    r == s.(serial := s.serial + 1, rows := Take(s.rows, Picked(w, s, PlanOf(w, s, e)), s.serial), saved := r.saved)
  }

  /** The allocator can serve the plan: enough free devices, none of those picked listed twice. */
  predicate Suffices(w: World, rows: map<Device, Sid>, plan: Plan) {
    var free := Fleet.Free(w.pool, rows);
    NeedsDevices(w, plan) ==> plan.gpus <= |free| && Fleet.Distinct(free[..plan.gpus])
  }

  predicate Granted(w: World, s: State, e: Eid)
    requires e in Fitting(w, s)
  {
    !Turned(w, s, e) && Suffices(w, s.rows, PlanOf(w, s, e))
  }

  lemma FateWhenGranted(w: World, s: State, e: Eid)
    requires e in Fitting(w, s) && Granted(w, s, e)
    ensures FateOf(w, s, e) ==
      if Priced(w, PlanOf(w, s, e)) && w.payFails(e) then Unpaid else if !w.spawns(e) then SpawnFailed else Launched
  {
  }

  /** What charging and spawning make of a reservation. */
  ghost predicate Settled(w: World, r: State, e: Eid, plan: Plan, sid: Sid, n: State, started: bool)
    requires e in r.entries
  {
    var x := r.entries[e];
    if Priced(w, plan) && w.payFails(e) then !started && n == Returned(r, e, sid, n.saved)
    else if !w.spawns(e) then !started && n == Returned(Charged(w, r, x.user, plan, e), e, sid, n.saved)
    else started && n == Charged(w, r, x.user, plan, e).(
      servers := r.servers[sid := Server(x.user, x.plan, Some(e))], entries := r.entries[e := x.(status := Started)], saved := n.saved)
  }

  /** Giving up undoes a reservation: only the entry, the key counter and the commit point differ. */
  lemma ReturnedRestores(s: State, taken: set<Device>, e: Eid, r: State, n: State)
    requires e in s.entries && (forall d | d in taken :: d !in s.rows) && (forall d | d in s.rows :: s.rows[d] != s.serial)
    requires r == s.(serial := s.serial + 1, rows := Take(s.rows, taken, s.serial), saved := r.saved)
    requires n == Returned(r, e, s.serial, n.saved)
    ensures n == s.(serial := s.serial + 1, entries := Fail(s.entries, e, 1), saved := n.saved)
  {
    ReserveThenRelease(s.rows, taken, s.serial);
  }

  /** After a reservation, the exception path ends in the flat result for that fate. */
  lemma FailureRestores(w: World, s: State, e: Eid, r: State, n: State)
    requires e in Fitting(w, s) && KeysDrawn(s) && Granted(w, s, e) && Reserved(w, s, e, r)
    requires n.saved.Keys == s.entries.Keys && Settled(w, r, e, PlanOf(w, s, e), s.serial, n, false)
    ensures Iterated(w, s, e, n, false)
  {
    FateWhenGranted(w, s, e);
    PickedIsFree(w, s, PlanOf(w, s, e));
    if FateOf(w, s, e) == Unpaid {
      ReturnedRestores(s, Picked(w, s, PlanOf(w, s, e)), e, r, n);
    } else {
      ChargedReturns(w, s, s.entries[e].user, PlanOf(w, s, e), Picked(w, s, PlanOf(w, s, e)), e, r, n);
    }
  }

  /** The same after the charge: the money stays spent. */
  lemma ChargedReturns(w: World, s: State, user: User, plan: Plan, taken: set<Device>, e: Eid, r: State, n: State)
    requires e in s.entries && (forall d | d in taken :: d !in s.rows) && (forall d | d in s.rows :: s.rows[d] != s.serial)
    requires r == s.(serial := s.serial + 1, rows := Take(s.rows, taken, s.serial), saved := r.saved)
    requires n == Returned(Charged(w, r, user, plan, e), e, s.serial, n.saved)
    ensures n == Charged(w, s, user, plan, e).(serial := s.serial + 1, entries := Fail(s.entries, e, 1), saved := n.saved)
  {
    var paid := Charged(w, s, user, plan, e);
    assert Charged(w, r, user, plan, e) == paid.(serial := s.serial + 1, rows := Take(s.rows, taken, s.serial), saved := r.saved);
    ReturnedRestores(paid, taken, e, Charged(w, r, user, plan, e), n);
  }

  lemma LaunchMatches(w: World, s: State, e: Eid, r: State, n: State)
    requires e in Fitting(w, s) && KeysDrawn(s) && Granted(w, s, e) && Reserved(w, s, e, r)
    requires n.saved.Keys == s.entries.Keys && Settled(w, r, e, PlanOf(w, s, e), s.serial, n, true)
    ensures Iterated(w, s, e, n, true)
  {
    FateWhenGranted(w, s, e);
  }

  // ---------------------------------------------------------------------------------------
  // The code
  // ---------------------------------------------------------------------------------------

  lemma SomeFirst(s: State, es: set<Eid>)
    requires es != {} && es <= s.entries.Keys
    ensures exists e :: e in es && forall o | o in es :: !Before(s.entries[o], s.entries[e])
    decreases |es|
  {
    var x :| x in es;
    if es != {x} {
      SomeFirst(s, es - {x});
      var y :| y in es - {x} && forall o | o in es - {x} :: !Before(s.entries[o], s.entries[y]);
      var first := if Before(s.entries[x], s.entries[y]) then x else y;
      assert first in es && forall o | o in es :: !Before(s.entries[o], s.entries[first]);
    }
  }

  class Pass {
    const w: World
    var db: State

    constructor (w: World, db: State)
      ensures this.w == w && this.db == db
    {
      this.w := w;
      this.db := db;
    }

    /** get_next_in_queue */
    method NextInQueue() returns (next: Option<Eid>)
      ensures next.Some? ==> Ready(w, db, next.value)
      ensures next.None? <==> Fitting(w, db) == {}
      ensures next.Some? ==> forall o | o in db.entries && db.entries[o].status == Pending && db.entries[o].plan in w.plans && w.fits(db.servers, db.entries[o].plan) ::
        var x, y := db.entries[next.value], db.entries[o]; y.priority < x.priority || (y.priority == x.priority && x.requested <= y.requested)
    {
      var es := Fitting(w, db);
      if es == {} {
        return None;
      }
      SomeFirst(db, es);
      var e :| e in es && forall o | o in es :: !Before(db.entries[o], db.entries[e]);
      next := Some(e);
    }

    method Commit()
      modifies this
      ensures db == old(db).(saved := old(db.entries))
    {
      db := db.(saved := db.entries);
    }

    /** A notification is written, and the session committed, unless the user switched it off. */
    method Notify(e: Eid)
      modifies this
      ensures db == old(db).(saved := if w.notifies(e) then old(db.entries) else old(db.saved))
    {
      if w.notifies(e) {
        Commit();
      }
    }

    /** _ensure_gpu_devices for a key drawn just now. */
    method EnsureDevices(sid: Sid, plan: Plan) returns (ok: bool)
      requires forall d | d in db.rows :: db.rows[d] != sid
      modifies this
      ensures ok == Suffices(w, old(db.rows), plan)
      ensures ok ==> db == old(db).(rows := Take(old(db.rows), Picked(w, old(db), plan), sid), saved := db.saved)
      ensures ok ==> db.saved == old(db.saved) || db.saved == db.entries
      ensures !ok ==> db == if |Fleet.Free(w.pool, old(db.rows))| < plan.gpus then old(db) else old(db).(entries := old(db.saved))
    {
      if w.pool == [] || plan.gpus == 0 {
        assert Take(db.rows, {}, sid) == db.rows;
        return true;
      }
      var free := Fleet.Free(w.pool, db.rows);
      if |free| < plan.gpus {
        return false;
      }
      if !Fleet.Distinct(free[..plan.gpus]) {
        db := db.(entries := db.saved);
        return false;
      }
      db := db.(rows := Take(db.rows, Picked(w, db, plan), sid));
      Commit();
      ok := true;
    }

    method ReleaseDevices(sid: Sid)
      modifies this
      ensures db == old(db).(rows := old(db.rows) - Fleet.Held(old(db.rows), sid), saved := old(db.entries))
    {
      db := db.(rows := db.rows - Fleet.Held(db.rows, sid));
      Commit();
    }

    /** The except branch: devices go back before the failure is recorded. */
    method GiveUp(e: Eid, sid: Sid)
      requires e in db.entries
      modifies this
      ensures db == old(db).(rows := old(db.rows) - Fleet.Held(old(db.rows), sid), entries := Fail(old(db.entries), e, 1), saved := db.saved)
      ensures db.saved.Keys == old(db.entries.Keys)
    {
      ReleaseDevices(sid);
      db := db.(entries := Fail(db.entries, e, 1));
      Notify(e);
    }

    method FailCleanly(e: Eid)
      requires e in db.entries
      modifies this
      ensures db == old(db).(entries := Fail(old(db.entries), e, 0))
    {
      db := db.(entries := Fail(db.entries, e, 0));
    }

    /** One iteration of the loop. */
    method TryStart(e: Eid) returns (started: bool)
      requires Ready(w, db, e) && KeysDrawn(db)
      modifies this
      ensures Iterated(w, old(db), e, db, started)
    {
      var x := db.entries[e];
      var plan := w.plans[x.plan];
      if !plan.active || x.user !in w.users || !w.users[x.user] || !w.quota(db.servers, x.user, x.plan) {
        FailCleanly(e);
        return false;
      }
      if Priced(w, plan) && Balance(db, x.user) < plan.cost {
        FailCleanly(e);
        return false;
      }
      started := Spawn(e, x, plan);
    }

    /** Draw a key, reserve, charge, spawn. */
    method Spawn(e: Eid, x: Entry, plan: Plan) returns (started: bool)
      requires e in Fitting(w, db) && KeysDrawn(db) && x == db.entries[e] && plan == w.plans[x.plan] && !Turned(w, db, e)
      modifies this
      ensures Iterated(w, old(db), e, db, started)
    {
      var sid := db.serial;
      var ok := Reserve(e, plan);
      if !ok {
        return false;
      }
      ghost var reserved := db;
      started := ChargeAndSpawn(e, x, plan, sid);
      if started {
        LaunchMatches(w, old(db), e, reserved, db);
      } else {
        FailureRestores(w, old(db), e, reserved, db);
      }
    }

    /** Draw a key and reserve the plan's devices under it; an entry that gets none fails cleanly. */
    method Reserve(e: Eid, plan: Plan) returns (ok: bool)
      requires e in Fitting(w, db) && KeysDrawn(db) && plan == PlanOf(w, db, e) && !Turned(w, db, e)
      modifies this
      ensures ok ==> Granted(w, old(db), e) && Reserved(w, old(db), e, db) && db.saved.Keys == old(db.entries.Keys)
      ensures !ok ==> Iterated(w, old(db), e, db, false)
    {
      var sid := db.serial;
      db := db.(serial := sid + 1);
      ok := EnsureDevices(sid, plan);
      if !ok {
        FailCleanly(e);
        DeniedMatches(w, old(db), e, db);
      }
    }

    method ChargeAndSpawn(e: Eid, x: Entry, plan: Plan, sid: Sid) returns (started: bool)
      requires e in db.entries && x == db.entries[e] && db.saved.Keys == db.entries.Keys
      modifies this
      ensures db.saved.Keys == old(db.entries.Keys)
      ensures Settled(w, old(db), e, plan, sid, db, started)
    {
      if Priced(w, plan) {
        if w.payFails(e) {
          GiveUp(e, sid);
          return false;
        }
        db := Debited(db, x.user, plan.cost, e);
        Commit();
      }
      if !w.spawns(e) {
        GiveUp(e, sid);
        return false;
      }
      db := db.(servers := db.servers[sid := Server(x.user, x.plan, Some(e))]);
      Commit();
      db := db.(entries := db.entries[e := x.(status := Started)]);
      Notify(e);
      started := true;
    }
  }
}
