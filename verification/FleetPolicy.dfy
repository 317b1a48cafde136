/**
 Exactly which habits device exclusivity depends on: each of the four that CAREFUL rules out has
 a run that puts one device into two running containers.
 */
module FleetPolicy {
  import opened Common
  import opened Fleet
  import opened FleetSafety

  ghost predicate Reaches(pol: Policy, st: State, end: State) {
    exists ops :: Runs(pol, st, ops) && After(pol, st, ops) == end
  }

  ghost predicate Safe(pol: Policy, st: State) {
    forall end | Reaches(pol, st, end) :: Exclusive(end)
  }

  function Empty(pool: seq<Device>, plan: PlanId, gpus: nat): State {
    State(pool, map[plan := gpus], map[], map[], map[], {}, 0)
  }

  lemma {:induction false} Append(pol: Policy, st: State, ops: seq<Op>, op: Op)
    requires Runs(pol, st, ops)
    requires Enabled(After(pol, st, ops), op) && Allowed(pol, After(pol, st, ops), op)
    ensures Runs(pol, st, ops + [op]) && After(pol, st, ops + [op]) == Apply(After(pol, st, ops), op)
    decreases |ops|
  {
    if ops == [] {
      assert ops + [op] == [op] && [op][1..] == [];
    } else {
      assert (ops + [op])[0] == ops[0] && (ops + [op])[1..] == ops[1..] + [op];
      Append(pol, Apply(st, ops[0]), ops[1..], op);
    }
  }

  lemma Begin(pol: Policy, st: State)
    ensures Reaches(pol, st, st)
  {
    var ops: seq<Op> := [];
    assert Runs(pol, st, ops) && After(pol, st, ops) == st;
  }

  lemma Go(pol: Policy, st: State, cur: State, op: Op) returns (next: State)
    requires Reaches(pol, st, cur) && Enabled(cur, op) && Allowed(pol, cur, op)
    ensures next == Apply(cur, op) && Reaches(pol, st, next)
  {
    var ops :| Runs(pol, st, ops) && After(pol, st, ops) == cur;
    Append(pol, st, ops, op);
    next := Apply(cur, op);
  }

  // ---------------------------------------------------------------------------------------
  // Devices granted from an empty table
  // ---------------------------------------------------------------------------------------

  function Firsts(pool: seq<Device>, k: nat): set<Device>
    requires k <= |pool|
  {
    set d | d in pool[..k]
  }

  lemma AllocateFirsts(pool: seq<Device>, sid: Sid, k: nat)
    requires Distinct(pool) && k <= |pool|
    ensures Allocate(pool, map[], sid, k) == Some(map d | d in Firsts(pool, k) :: sid)
  {
    AllFree(pool);
    assert Distinct(pool[..k]);
    var grant := map d | d in pool[..k] :: sid;
    var none: map<Device, Sid> := map[];
    assert none + grant == map d | d in Firsts(pool, k) :: sid;
  }

  lemma FirstGrant(st: State, sid: Sid, k: nat)
    requires st.rows == map[] && Distinct(st.pool) && 1 <= k <= |st.pool|
    ensures Ensure(st, sid, k).Some?
    ensures Held(Ensure(st, sid, k).value, sid) == Firsts(st.pool, k)
    ensures Ensure(st, sid, k).value.Keys == Firsts(st.pool, k)
  {
    AllocateFirsts(st.pool, sid, k);
    assert Held(st.rows, sid) == {};
  }

  /** Releasing the only holder empties the table. */
  lemma ReleaseAll(st: State, sid: Sid)
    requires forall d | d in st.rows :: st.rows[d] == sid
    ensures Release(st, sid).rows == map[]
  {
  }

  /** A second server created on an empty table gets the very devices the first one had. */
  lemma SecondServer(pol: Policy, st: State, cur: State, plan: PlanId) returns (next: State)
    requires Reaches(pol, st, cur) && cur.rows == map[] && Distinct(cur.pool)
    requires plan in cur.plans && 1 <= cur.plans[plan] <= |cur.pool|
    requires 2 !in cur.servers && 2 !in cur.containers && 2 !in cur.pending
    ensures Reaches(pol, st, next)
    ensures next == cur.(servers := next.servers, containers := next.containers, rows := next.rows, nextId := next.nextId)
    ensures next.servers == cur.servers[2 := Record(Some(plan), cur.plans[plan], Running, Some(cur.nextId))]
    ensures next.containers == cur.containers[2 := Container(cur.nextId, Firsts(cur.pool, cur.plans[plan]), true)]
  {
    FirstGrant(cur, 2, cur.plans[plan]);
    assert Held(cur.rows, 2) == {};
    next := Go(pol, st, cur, Create(2, plan, SpawnOk, true));
  }

  lemma StoppedInBulk(pol: Policy, st: State, cur: State, c: Container) returns (next: State)
    requires Reaches(pol, st, cur) && 1 in cur.servers && 1 in cur.containers && cur.containers[1] == c
    requires cur.servers[1].container == Some(c.id)
    ensures Reaches(pol, st, next)
    ensures next == cur.(
      servers := cur.servers[1 := cur.servers[1].(status := Stopped)],
      containers := cur.containers[1 := c.(up := false)],
      pending := cur.pending + {1})
  {
    next := Go(pol, st, cur, BulkStop(1, Halt(true, true)));
  }

  lemma ReleasedLate(pol: Policy, st: State, cur: State) returns (next: State)
    requires Reaches(pol, st, cur) && 1 in cur.pending && forall d | d in cur.rows :: cur.rows[d] == 1
    ensures Reaches(pol, st, next) && next == cur.(rows := map[], pending := cur.pending - {1})
  {
    ReleaseAll(cur, 1);
    next := Go(pol, st, cur, BulkRelease(1));
  }

  /** Stopped in bulk and released: the container stays, its devices are up for grabs. */
  lemma BulkStopAndRelease(pol: Policy, st: State, cur: State, c: Container) returns (next: State)
    requires Reaches(pol, st, cur) && 1 in cur.servers && 1 in cur.containers && cur.containers[1] == c
    requires cur.servers[1].container == Some(c.id) && 1 !in cur.pending
    requires forall d | d in cur.rows :: cur.rows[d] == 1
    ensures Reaches(pol, st, next)
    ensures next == cur.(
      servers := cur.servers[1 := cur.servers[1].(status := Stopped)],
      containers := cur.containers[1 := c.(up := false)],
      rows := map[])
  {
    next := StoppedInBulk(pol, st, cur, c);
    next := ReleasedLate(pol, st, next);
    assert next.pending == cur.pending;
  }

  /** The first GPU server of an empty fleet. */
  lemma FirstServer(pol: Policy, pool: seq<Device>, plan: PlanId, k: nat) returns (cur: State)
    requires Distinct(pool) && 1 <= k <= |pool|
    ensures var st := Empty(pool, plan, k);
      && Reaches(pol, st, cur)
      && cur == st.(servers := map[1 := Record(Some(plan), k, Running, Some(0))],
                    containers := map[1 := Container(0, Firsts(pool, k), true)], rows := cur.rows, nextId := 1)
      && cur.rows.Keys == Firsts(pool, k) && (forall d | d in cur.rows :: cur.rows[d] == 1)
  {
    var st := Empty(pool, plan, k);
    Begin(pol, st);
    FirstGrant(st, 1, k);
    assert Held(st.rows, 1) == {};
    cur := Go(pol, st, st, Create(1, plan, SpawnOk, true));
    assert forall d | d in cur.rows :: d in Held(cur.rows, 1);
  }

  lemma Shared(end: State, d: Device)
    requires 1 in end.containers && 2 in end.containers && end.containers[1].up && end.containers[2].up
    requires d in end.containers[1].devices && d in end.containers[2].devices
    ensures !Exclusive(end)
  {
  }

  /** A restart that finds no GPU in the plan launches the old container as it is. */
  lemma RestartedInPlace(pol: Policy, st: State, cur: State, c: Container) returns (next: State)
    requires Reaches(pol, st, cur) && 1 in cur.servers && 1 in cur.containers && cur.containers[1] == c && !c.up
    requires cur.servers[1].container == Some(c.id) && GpuCount(cur, cur.servers[1]) == 0 && 1 !in cur.pending
    ensures Reaches(pol, st, next)
    ensures next.containers == cur.containers[1 := c.(up := true)]
  {
    next := Go(pol, st, cur, Restart(1, IsStopped, Delete(false, false), SpawnOk, Halt(true, true), Launch(true, true)));
  }

  /** Setting a GPU plan's limit to zero makes restart reuse a container whose devices were given away. */
  lemma GpuRemovedShares(pol: Policy, pool: seq<Device>, plan: PlanId, k: nat)
    requires pol.gpuRemoved && Distinct(pool) && 1 <= k <= |pool|
    ensures !Safe(pol, Empty(pool, plan, k))
  {
    var st := Empty(pool, plan, k);
    var cur := FirstServer(pol, pool, plan, k);
    cur := BulkStopAndRelease(pol, st, cur, cur.containers[1]);
    cur := SecondServer(pol, st, cur, plan);
    cur := Go(pol, st, cur, EditPlan(plan, 0));
    cur := RestartedInPlace(pol, st, cur, cur.containers[1]);
    assert pool[0] in Firsts(pool, k);
    Shared(cur, pool[0]);
  }

  /** Started again from a stopped container, on the rows it still holds. */
  lemma RestartedOnRows(pol: Policy, st: State, cur: State, c: Container) returns (next: State)
    requires Reaches(pol, st, cur) && pol.earlyStart && cur.pool != []
    requires 1 in cur.servers && 1 in cur.containers && cur.containers[1] == c && !c.up
    requires cur.servers[1].container == Some(c.id) && GpuCount(cur, cur.servers[1]) > 0
    requires Held(cur.rows, 1) != {}
    ensures Reaches(pol, st, next)
    ensures next == cur.(servers := next.servers, nextId := cur.nextId + 1,
                         containers := cur.containers[1 := Container(cur.nextId, Held(cur.rows, 1), true)])
    ensures next.servers == cur.servers[1 := cur.servers[1].(status := Running, container := Some(cur.nextId))]
  {
    next := Go(pol, st, cur, Start(1, IsStopped, Delete(true, true), SpawnOk));
    assert (cur.containers - {1})[1 := Container(cur.nextId, Held(cur.rows, 1), true)]
        == cur.containers[1 := Container(cur.nextId, Held(cur.rows, 1), true)];
  }

  /** A start between a bulk stop and the batch's release runs on rows that are then given away. */
  lemma EarlyStartShares(pol: Policy, pool: seq<Device>, plan: PlanId, k: nat)
    requires pol.earlyStart && Distinct(pool) && 1 <= k <= |pool|
    ensures !Safe(pol, Empty(pool, plan, k))
  {
    var st := Empty(pool, plan, k);
    var cur := FirstServer(pol, pool, plan, k);
    assert Held(cur.rows, 1) == Firsts(pool, k);
    assert pool[0] in Firsts(pool, k);
    cur := StoppedInBulk(pol, st, cur, cur.containers[1]);
    cur := RestartedOnRows(pol, st, cur, cur.containers[1]);
    cur := ReleasedLate(pol, st, cur);
    cur := SecondServer(pol, st, cur, plan);
    Shared(cur, pool[0]);
  }

  /** A server created without GPUs and then given devices by a plan edit is plain-started in bulk. */
  lemma GpuAddedShares(pol: Policy, pool: seq<Device>, plan: PlanId, k: nat)
    requires pol.gpuAdded && Distinct(pool) && 1 <= k <= |pool|
    ensures !Safe(pol, Empty(pool, plan, 0))
  {
    var st := Empty(pool, plan, 0);
    var cur := LateGpuServer(pol, pool, plan, k);
    cur := BulkStopAndRelease(pol, st, cur, cur.containers[1]);
    cur := SecondServer(pol, st, cur, plan);
    cur := Go(pol, st, cur, BulkStart(1, Delete(false, false), SpawnOk, Launch(true, true)));
    Shared(cur, pool[0]);
  }

  /** Created on a CPU plan that then becomes a GPU plan, and stopped. */
  lemma UpgradedServer(pol: Policy, pool: seq<Device>, plan: PlanId, k: nat) returns (cur: State)
    requires pol.gpuAdded && Distinct(pool) && 1 <= k <= |pool|
    ensures var st := Empty(pool, plan, 0);
      && Reaches(pol, st, cur)
      && cur == st.(plans := map[plan := k], servers := map[1 := Record(Some(plan), 0, Stopped, None)], nextId := 1)
  {
    var st := Empty(pool, plan, 0);
    Begin(pol, st);
    assert Held(st.rows, 1) == {};
    cur := Go(pol, st, st, Create(1, plan, SpawnOk, true));
    cur := Go(pol, st, cur, EditPlan(plan, k));
    cur := Go(pol, st, cur, Stop(1, IsRunning, Delete(true, true), true));
    assert cur.rows == map[] && cur.containers == map[];
  }

  lemma RebuildFromEmptyTable(st: State, sid: Sid, k: nat)
    requires sid in st.servers && GpuCount(st, st.servers[sid]) == k
    requires st.rows == map[] && Distinct(st.pool) && 1 <= k <= |st.pool|
    ensures Ensure(st, sid, k).Some?
    ensures Rebuild(st, sid, SpawnOk) == Spawned(st, Ensure(st, sid, k).value, sid, Firsts(st.pool, k), SpawnOk)
    ensures forall d | d in Ensure(st, sid, k).value :: Ensure(st, sid, k).value[d] == sid
  {
    FirstGrant(st, sid, k);
    assert forall d | d in Ensure(st, sid, k).value :: d in Held(Ensure(st, sid, k).value, sid);
  }

  lemma LateGpuServer(pol: Policy, pool: seq<Device>, plan: PlanId, k: nat) returns (cur: State)
    requires pol.gpuAdded && Distinct(pool) && 1 <= k <= |pool|
    ensures var st := Empty(pool, plan, 0);
      && Reaches(pol, st, cur)
      && cur == st.(plans := map[plan := k], servers := map[1 := Record(Some(plan), 0, Running, Some(1))],
                    containers := map[1 := Container(1, Firsts(pool, k), true)], rows := cur.rows, nextId := 2)
      && (forall d | d in cur.rows :: cur.rows[d] == 1)
  {
    var st := Empty(pool, plan, 0);
    var mid := UpgradedServer(pol, pool, plan, k);
    RebuildFromEmptyTable(mid, 1, k);
    var rows := Ensure(mid, 1, k).value;
    var next := Go(pol, st, mid, Start(1, IsUnknown, Delete(false, false), SpawnOk));
    assert next == Spawned(mid, rows, 1, Firsts(pool, k), SpawnOk);
    cur := next;
  }

  /** Deleting a user drops the record of a running container; its rows are then reaped and granted again. */
  lemma UserErasedShares(pol: Policy, pool: seq<Device>, plan: PlanId, k: nat)
    requires pol.runningUserErased && Distinct(pool) && 1 <= k <= |pool|
    ensures !Safe(pol, Empty(pool, plan, k))
  {
    var st := Empty(pool, plan, k);
    var cur := FirstServer(pol, pool, plan, k);
    cur := Reaped(pol, st, cur);
    cur := SecondServer(pol, st, cur, plan);
    assert pool[0] in Firsts(pool, k);
    Shared(cur, pool[0]);
  }

  lemma Reaped(pol: Policy, st: State, cur: State) returns (next: State)
    requires pol.runningUserErased && Reaches(pol, st, cur) && cur.servers.Keys == {1} && cur.pool != []
    requires forall d | d in cur.rows :: cur.rows[d] == 1
    ensures Reaches(pol, st, next) && next == cur.(servers := map[], rows := map[])
  {
    next := Go(pol, st, cur, UserErased(1));
    assert next.servers == map[];
    next := Go(pol, st, next, Reconcile(cur.rows.Keys));
    assert next.rows == map[];
  }

  lemma EmptyInv(pool: seq<Device>, plan: PlanId, gpus: nat)
    ensures Inv(Empty(pool, plan, gpus))
  {
  }

  /** Exclusivity survives every run exactly when none of the four habits is allowed. */
  lemma SafeExactlyWhenCareful(pol: Policy, pool: seq<Device>, plan: PlanId, k: nat)
    requires Distinct(pool) && 1 <= k <= |pool|
    ensures Safe(pol, Empty(pool, plan, k)) && Safe(pol, Empty(pool, plan, 0)) <==> pol == CAREFUL
  {
    if pol == CAREFUL {
      forall g: nat, end | Reaches(pol, Empty(pool, plan, g), end) ensures Exclusive(end) {
        var ops :| Runs(pol, Empty(pool, plan, g), ops) && After(pol, Empty(pool, plan, g), ops) == end;
        EmptyInv(pool, plan, g);
        ExclusiveThroughout(Empty(pool, plan, g), ops);
      }
    } else if pol.gpuRemoved {
      GpuRemovedShares(pol, pool, plan, k);
    } else if pol.gpuAdded {
      GpuAddedShares(pol, pool, plan, k);
    } else if pol.earlyStart {
      EarlyStartShares(pol, pool, plan, k);
    } else {
      UserErasedShares(pol, pool, plan, k);
    }
  }
}
